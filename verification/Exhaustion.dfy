/** An exhausted retry budget stops the retry loop until a decision releases it. */
module Exhaustion {
  import opened Wrappers
  import opened Text
  import opened Classify
  import opened Tables
  import opened RunLifecycle
  import opened Steps
  import opened Ledger
  import opened Integrity
  import opened Conservation
  import opened PassEvidence
  import opened RoundGates
  import opened Completion
  import Autonomy

  // ── policies ───────────────────────────────────────────────────────────

  /** Policies keep their rules, and no plan has an empty id. */
  ghost predicate PoliciesOk(db: Db) {
    Autonomy.Inv(db.policies) && "" !in db.plans
  }

  lemma PolicyAnswer(db: Db, w: World, op: Op)
    requires op.SetPolicy?
    ensures Answer(db, w, op) == Response(db.(policies := Autonomy.Apply(db.policies, op.policyOp)), None)
  {
    hide Autonomy.Apply, AnswerRun, AnswerTask, AnswerRound;
  }

  lemma PlanAnswer(db: Db, w: World, op: Op)
    ensures IsAdminOp(op) && !op.SetPolicy? ==> Answer(db, w, op).db.policies == db.policies
    ensures IsAdminOp(op) && !op.NewPlan? ==> Answer(db, w, op).db.plans == db.plans
    ensures op.NewPlan? ==> Answer(db, w, op).db.plans == if op.id in db.plans then db.plans else db.plans[op.id := op.project]
  {
    hide Autonomy.Apply, AnswerRun, AnswerTask, AnswerRound;
  }

  lemma OtherRequestsSparePolicies(db: Db, w: World, op: Op)
    ensures !op.SetPolicy? ==> Apply(db, w, op).policies == db.policies
    ensures !op.NewPlan? ==> Apply(db, w, op).plans == db.plans
  {
    if IsAdminOp(op) {
      PlanAnswer(db, w, op);
      hide Answer, LookupsOk;
    } else {
      Frame(db, w, op);
      OneKind(op);
      hide Apply, Spares, IsRunOp, IsTaskOp, IsRoundOp;
      SparedTables(op, db, Apply(db, w, op));
    }
  }

  lemma PolicyKeeps(db: Db, op: Op)
    requires PoliciesOk(db) && LookupsOk(db, op) && op.SetPolicy?
    ensures Autonomy.Inv(Autonomy.Apply(db.policies, op.policyOp))
  {
    assert Autonomy.OpOk(op.policyOp);
    hide Autonomy.Inv, Autonomy.Apply;
    Autonomy.ApplyKeepsInv(db.policies, op.policyOp);
  }

  lemma StepKeepsPolicies(db: Db, w: World, op: Op)
    requires PoliciesOk(db)
    ensures PoliciesOk(Apply(db, w, op))
  {
    OtherRequestsSparePolicies(db, w, op);
    hide Autonomy.Inv, Autonomy.Apply, Answer;
    if LookupsOk(db, op) {
      if op.SetPolicy? {
        PolicyKeeps(db, op);
        PolicyAnswer(db, w, op);
      }
      if op.NewPlan? {
        assert op.id != "";
        PlanAnswer(db, w, op);
      }
    }
    hide LookupsOk;
  }

  lemma {:induction false} PoliciesStayOk(db: Db, events: seq<Event>)
    requires PoliciesOk(db)
    ensures PoliciesOk(After(db, events))
  {
    if events != [] {
      PoliciesStayOk(db, events[..|events| - 1]);
      hide PoliciesOk, Apply;
      var e := events[|events| - 1];
      StepKeepsPolicies(After(db, events[..|events| - 1]), e.world, e.op);
    }
  }

  /** In every reachable database. */
  lemma ReachablePoliciesAreOk(events: seq<Event>)
    ensures PoliciesOk(After(EMPTY, events))
  {
    hide After;
    PoliciesStayOk(EMPTY, events);
  }

  /** What a request on policies makes of the cap of a plan: nothing, unless it is accepted and writes the row the cap is read
      from. */
  lemma CapAfterPolicy(db: Db, w: World, op: Op, plan: string)
    requires PoliciesOk(db) && LookupsOk(db, op) && op.SetPolicy? && plan in db.plans
    ensures plan in Apply(db, w, op).plans
    ensures CapOf(Apply(db, w, op), plan)
            == match op.policyOp
               case Break(_, _, _, _) => CapOf(db, plan)
               case Set(r, parents) =>
                 if Autonomy.IsAccepted(db.policies, r, parents) && Autonomy.Governs(db.policies, r, db.plans[plan], plan)
                 then Autonomy.WrittenCap(db.policies, r) else CapOf(db, plan)
  {
    PolicyAnswer(db, w, op);
    assert op.policyOp.Set? ==> "" !in op.policyOp.parents.plans;
    hide Answer, LookupsOk, Autonomy.Apply, Autonomy.PlanCap, Autonomy.Inv, Autonomy.WrittenCap, Autonomy.IsAccepted, Autonomy.Governs;
    match op.policyOp
    case Set(r, parents) => Autonomy.PlanCapAfterWrite(db.policies, r, parents, db.plans[plan], plan);
    case Break(project, actor, reason, at) =>
      Autonomy.PlanCapAfterBreak(db.policies, project, actor, reason, at, db.plans[plan], plan);
  }

  // ── exhaustion lasts ───────────────────────────────────────────────────

  predicate IsCounter(db: Db, k: Key, plan: string, scenario: string) {
    k in db.budgets && k.plan == plan && k.scenario == scenario
  }

  /** An accepted release of every exhausted bucket of the scenario in the plan. */
  ghost predicate ReleasesAll(db: Db, op: Op, plan: string, scenario: string) {
    && op.Release? && ReleaseBudget(db, op.ref_, op.plan_, op.cwdPlan_, op.signature, op.decision).Ok?
    && ResolveScenario(db, op.ref_, op.plan_, op.cwdPlan_) == Ok(scenario)
    && scenario in db.scenarios && db.scenarios[scenario].planId == plan
    && forall k :: IsCounter(db, k, plan, scenario) && AtCap(db, k) ==> op.signature.Some? ==> k.signature == op.signature.value
  }

  /** An accepted write of the policy that governs the plan, with a cap above every counter of the scenario. */
  ghost predicate LiftsCap(db: Db, op: Op, plan: string, scenario: string) {
    && op.SetPolicy? && op.policyOp.Set? && plan in db.plans
    && Autonomy.IsAccepted(db.policies, op.policyOp.request, op.policyOp.parents)
    && Autonomy.Governs(db.policies, op.policyOp.request, db.plans[plan], plan)
    && forall k :: IsCounter(db, k, plan, scenario) ==>
         db.budgets[k].count < Autonomy.WrittenCap(db.policies, op.policyOp.request)
  }

  /** The guard: what a caller can see before the request. */
  ghost predicate Reopens(db: Db, op: Op, plan: string, scenario: string) {
    ReleasesAll(db, op, plan, scenario) || LiftsCap(db, op, plan, scenario)
  }

  lemma CapStays(db: Db, w: World, op: Op, plan: string)
    requires !op.SetPolicy? && plan in db.plans
    ensures plan in Apply(db, w, op).plans && CapOf(Apply(db, w, op), plan) == CapOf(db, plan)
  {
    OtherRequestsSparePolicies(db, w, op);
    if op.NewPlan? { PlanAnswer(db, w, op); }
    hide Answer, LookupsOk, Autonomy.PlanCap;
  }

  /** An exhausted bucket that is not released stays one, under the same cap. */
  lemma BucketStays(db: Db, next: Db, k: Key)
    requires AtCap(db, k) && k in next.budgets && next.budgets[k].count >= db.budgets[k].count
    requires k.plan in next.plans && CapOf(next, k.plan) <= CapOf(db, k.plan)
    ensures AtCap(next, k)
  {
    hide CapOf;
  }

  lemma ExhaustedBy(db: Db, k: Key)
    requires AtCap(db, k)
    ensures IsExhausted(db, k.plan, k.scenario)
  {
    hide AtCap;
    assert k in db.budgets by { hide CapOf; InBudgets(db, k); }
  }

  lemma InBudgets(db: Db, k: Key)
    requires AtCap(db, k)
    ensures k in db.budgets && k.plan in db.plans
  {
    hide CapOf;
  }

  lemma ReleasedBuckets(db: Db, w: World, op: Op, k: Key)
    requires op.Release? && k in db.budgets
    ensures var n := Apply(db, w, op);
            var s := ResolveScenario(db, op.ref_, op.plan_, op.cwdPlan_);
            && k in n.budgets
            && (if ReleaseBudget(db, op.ref_, op.plan_, op.cwdPlan_, op.signature, op.decision).Ok?
                   && s.Ok? && s.value in db.scenarios && IsReleased(k, db.scenarios[s.value].planId, s.value, op.signature)
                then n.budgets[k].count == 0 else n.budgets[k] == db.budgets[k])
    ensures Apply(db, w, op).budgets.Keys == db.budgets.Keys
  {
    RunAnswers(db, w, op);
    hide Answer, ResolveScenario;
  }

  /** A request that does not reopen the scenario leaves it exhausted. */
  lemma ExhaustionLasts(db: Db, w: World, op: Op, plan: string, scenario: string)
    requires PoliciesOk(db) && IsExhausted(db, plan, scenario) && !Reopens(db, op, plan, scenario)
    ensures IsExhausted(Apply(db, w, op), plan, scenario)
  {
    var k :| k in db.budgets && k.plan == plan && k.scenario == scenario && AtCap(db, k);
    InBudgets(db, k);
    if !LookupsOk(db, op) {
      assert Apply(db, w, op) == db by { hide IsExhausted, PoliciesOk, Reopens, AtCap, LookupsOk, Answer; }
    } else if op.Release? {
      ReleaseLasts(db, w, op, plan, scenario);
    } else if op.SetPolicy? {
      PolicyLasts(db, w, op, plan, scenario);
    } else {
      CapStays(db, w, op, plan);
      CountersFallOnlyByRelease(db, w, op, k);
      hide Apply, CapOf, Reopens, AtCap, LookupsOk, IsExhausted;
      BucketStays(db, Apply(db, w, op), k);
      ExhaustedBy(Apply(db, w, op), k);
    }
  }

  lemma ReleaseLasts(db: Db, w: World, op: Op, plan: string, scenario: string)
    requires op.Release? && IsExhausted(db, plan, scenario) && !ReleasesAll(db, op, plan, scenario)
    ensures IsExhausted(Apply(db, w, op), plan, scenario)
  {
    hide ReleaseBudget, ResolveScenario, CapOf, Apply;
    var k :| k in db.budgets && k.plan == plan && k.scenario == scenario && AtCap(db, k);
    var s := ResolveScenario(db, op.ref_, op.plan_, op.cwdPlan_);
    if ReleaseBudget(db, op.ref_, op.plan_, op.cwdPlan_, op.signature, op.decision).Ok? && s == Ok(scenario)
       && scenario in db.scenarios && db.scenarios[scenario].planId == plan {
      k :| IsCounter(db, k, plan, scenario) && AtCap(db, k) && op.signature.Some? && k.signature != op.signature.value;
    }
    ReleasedBuckets(db, w, op, k);
    CapStays(db, w, op, plan);
    hide AtCap, IsExhausted;
    BucketStays(db, Apply(db, w, op), k);
    ExhaustedBy(Apply(db, w, op), k);
  }

  lemma PolicyLasts(db: Db, w: World, op: Op, plan: string, scenario: string)
    requires PoliciesOk(db) && LookupsOk(db, op) && op.SetPolicy? && IsExhausted(db, plan, scenario)
    requires !LiftsCap(db, op, plan, scenario)
    ensures IsExhausted(Apply(db, w, op), plan, scenario)
  {
    var next := Apply(db, w, op);
    var k :| k in db.budgets && k.plan == plan && k.scenario == scenario && AtCap(db, k);
    CapAfterPolicy(db, w, op, plan);
    OnlyRunRequestsTouchTheLedger(db, w, op);
    hide Apply, CapOf, LookupsOk, PoliciesOk, Autonomy.IsAccepted, Autonomy.Governs, Autonomy.WrittenCap;
    if CapOf(next, plan) != CapOf(db, plan) {
      k :| IsCounter(db, k, plan, scenario) && db.budgets[k].count >= Autonomy.WrittenCap(db.policies, op.policyOp.request);
    }
    assert AtCap(next, k);
  }

  /** An exhaustion ends exactly by a request that releases all its buckets, on the authority of a standing decision, or by one
      that writes a cap above every counter of the scenario: no other request ends it, circuit breakers included. */
  lemma ExhaustionEndsExactly(db: Db, w: World, op: Op, plan: string, scenario: string)
    requires PoliciesOk(db) && LookupsOk(db, op) && IsExhausted(db, plan, scenario)
    ensures !IsExhausted(Apply(db, w, op), plan, scenario) <==> Reopens(db, op, plan, scenario)
  {
    hide IsExhausted, LookupsOk, Apply, ReleasesAll, LiftsCap, PoliciesOk;
    if ReleasesAll(db, op, plan, scenario) {
      ReleaseEnds(db, w, op, plan, scenario);
    } else if LiftsCap(db, op, plan, scenario) {
      LiftEnds(db, w, op, plan, scenario);
    } else {
      ExhaustionLasts(db, w, op, plan, scenario);
    }
  }

  lemma ReleaseEnds(db: Db, w: World, op: Op, plan: string, scenario: string)
    requires PoliciesOk(db) && ReleasesAll(db, op, plan, scenario)
    ensures !IsExhausted(Apply(db, w, op), plan, scenario)
  {
    var next := Apply(db, w, op);
    hide ReleaseBudget, ResolveScenario, CapOf, Apply;
    forall k | k in next.budgets && k.plan == plan && k.scenario == scenario ensures !AtCap(next, k) {
      if plan in next.plans {
        StepKeepsPolicies(db, w, op);
        CapPositive(next, plan);
        OtherRequestsSparePolicies(db, w, op);
        CapStays(db, w, op, plan);
        hide PoliciesOk;
        assert k in db.budgets by { ReleasedKeys(db, w, op); }
        ReleasedBuckets(db, w, op, k);
        assert IsCounter(db, k, plan, scenario);
      }
    }
  }

  lemma ReleasedKeys(db: Db, w: World, op: Op)
    requires op.Release?
    ensures Apply(db, w, op).budgets.Keys == db.budgets.Keys
  {
    RunAnswers(db, w, op);
    hide Answer, ResolveScenario;
  }

  lemma LiftEnds(db: Db, w: World, op: Op, plan: string, scenario: string)
    requires PoliciesOk(db) && LookupsOk(db, op) && LiftsCap(db, op, plan, scenario)
    ensures !IsExhausted(Apply(db, w, op), plan, scenario)
  {
    var next := Apply(db, w, op);
    CapAfterPolicy(db, w, op, plan);
    OnlyRunRequestsTouchTheLedger(db, w, op);
    hide Apply, CapOf, LookupsOk, PoliciesOk, Autonomy.IsAccepted, Autonomy.Governs, Autonomy.WrittenCap;
    forall k | k in next.budgets && k.plan == plan && k.scenario == scenario ensures !AtCap(next, k) {
      assert IsCounter(db, k, plan, scenario);
    }
  }

  /** For one request on policies: the cap of the plan afterwards, and exactly when the exhaustion ends without any decision. */
  lemma RaisedCapReopens(db: Db, w: World, r: Autonomy.Request, parents: Autonomy.Parents, plan: string, scenario: string)
    requires PoliciesOk(db) && LookupsOk(db, SetPolicy(Autonomy.Set(r, parents))) && IsExhausted(db, plan, scenario)
    ensures plan in db.plans && plan in Apply(db, w, SetPolicy(Autonomy.Set(r, parents))).plans
    ensures var next := Apply(db, w, SetPolicy(Autonomy.Set(r, parents)));
            var writes := Autonomy.IsAccepted(db.policies, r, parents) && Autonomy.Governs(db.policies, r, db.plans[plan], plan);
            && CapOf(next, plan) == (if writes then Autonomy.WrittenCap(db.policies, r) else CapOf(db, plan))
            && (!IsExhausted(next, plan, scenario)
                <==> writes && forall k :: IsCounter(db, k, plan, scenario) ==>
                                 db.budgets[k].count < Autonomy.WrittenCap(db.policies, r))
  {
    var op := SetPolicy(Autonomy.Set(r, parents));
    var k :| k in db.budgets && k.plan == plan && k.scenario == scenario && AtCap(db, k);
    InBudgets(db, k);
    CapAfterPolicy(db, w, op, plan);
    hide IsExhausted, LookupsOk, Apply, PoliciesOk, CapOf, Autonomy.IsAccepted, Autonomy.Governs, Autonomy.WrittenCap;
    ExhaustionEndsExactly(db, w, op, plan, scenario);
  }

  /** A database whose project has a global cap of one, with a scenario at it. */
  const STRICT := EMPTY.(
    plans := map["P" := "J"],
    policies := [Autonomy.Policy("G", "J", None, Autonomy.Global, None, None, Autonomy.L3, 5, 3, 1, false, false, None, false,
                                 0, "user", None, 0, 0)],
    scenarios := map["S" := Scenario("P", "SCN-1", "g", "w", "t", true, false)],
    budgets := map[Key("P", "S", Product, "caller:x") := Budget(1, 1, "X", "X", None)])

  /** The first policy of a plan, with no cap asked for. */
  const FIRST_POLICY := Autonomy.Request(
    Autonomy.Policy("N", "J", Some("P"), Autonomy.Plan, None, None, Autonomy.L3, 5, 3, 3, false, false, None, false, 0, "user",
                    None, 0, 0), false)

  const FIRST_PARENTS := Autonomy.Parents({"J"}, {"P"})

  lemma StrictIsExhausted()
    ensures IsExhausted(STRICT, "P", "S") && CapOf(STRICT, "P") == 1
  {
    var k := Key("P", "S", Product, "caller:x");
    assert STRICT.policies[1..] == [];
    Autonomy.PlanCapByKeys(STRICT.policies, "J", "P");
    hide Autonomy.PlanCap;
    assert AtCap(STRICT, k) && k in STRICT.budgets;
  }

  lemma FirstPolicyIsWritten()
    ensures PoliciesOk(STRICT) && LookupsOk(STRICT, SetPolicy(Autonomy.Set(FIRST_POLICY, FIRST_PARENTS)))
    ensures Autonomy.IsAccepted(STRICT.policies, FIRST_POLICY, FIRST_PARENTS)
    ensures Autonomy.Governs(STRICT.policies, FIRST_POLICY, "J", "P")
    ensures Autonomy.WrittenCap(STRICT.policies, FIRST_POLICY) == 3
  {
    assert STRICT.policies[1..] == [];
    assert STRICT.plans.Keys == {"P"};
  }

  /** Nobody asked for a higher cap, and the scenario is exhausted no more. */
  lemma OmittedCapReopens(w: World)
    ensures var op := SetPolicy(Autonomy.Set(FIRST_POLICY, FIRST_PARENTS));
            && PoliciesOk(STRICT) && LookupsOk(STRICT, op)
            && IsExhausted(STRICT, "P", "S") && CapOf(STRICT, "P") == 1
            && !IsExhausted(Apply(STRICT, w, op), "P", "S")
            && "P" in Apply(STRICT, w, op).plans && CapOf(Apply(STRICT, w, op), "P") == 3
  {
    StrictIsExhausted();
    FirstPolicyIsWritten();
    hide IsExhausted, LookupsOk, PoliciesOk, Apply, CapOf, Autonomy.IsAccepted, Autonomy.Governs, Autonomy.WrittenCap;
    RaisedCapReopens(STRICT, w, FIRST_POLICY, FIRST_PARENTS, "P", "S");
  }

  // ── no task starts ─────────────────────────────────────────────────────

  /** A task of the plan, in progress, that owns the scenario. */
  predicate IsWorking(db: Db, plan: string, scenario: string, task: string) {
    && task in db.tasks && db.tasks[task].status.InProgress? && db.tasks[task].planId == plan
    && scenario in db.tasks[task].parents
  }

  lemma MoveStartsNothing(db: Db, id: string, target: TaskStatus, plan: string, scenario: string, task: string)
    requires IsExhausted(db, plan, scenario)
    requires var n := SetTaskStatus(db, id, target); n.Ok? && IsWorking(db.(tasks := n.value), plan, scenario, task)
    ensures IsWorking(db, plan, scenario, task)
  {
    hide IsExhausted;
  }

  lemma ActivationStartsNothing(db: Db, w: World, id: string, prev: Option<string>, plan: string, scenario: string, task: string)
    requires IsWorking(ActivateRound(db, w, id, prev).db, plan, scenario, task)
    ensures IsWorking(db, plan, scenario, task)
  {
    hide ActivatedVerdicts, ActivatedRounds, LateActivationError, ActivationError;
  }

  lemma TaskOpStartsNothing(db: Db, w: World, op: Op, plan: string, scenario: string, task: string)
    requires IsTaskOp(op) && IsExhausted(db, plan, scenario)
    requires IsWorking(AnswerTask(db, w, op).db, plan, scenario, task)
    ensures IsWorking(db, plan, scenario, task)
  {
    if op.MoveTask? {
      hide SetTaskStatus, IsExhausted;
      var n := SetTaskStatus(db, op.id, op.target);
      if n.Ok? { MoveStartsNothing(db, op.id, op.target, plan, scenario, task); }
    } else {
      hide SetTaskStatus, Resolved, FirstRefused, Recorded, EvidenceError, IsExhausted;
    }
  }

  /** While a scenario is exhausted no request puts a task of its plan that owns it in progress, whatever the task's age or
      name. */
  lemma NothingStarts(db: Db, w: World, op: Op, plan: string, scenario: string, task: string)
    requires IsExhausted(db, plan, scenario)
    requires IsWorking(Apply(db, w, op), plan, scenario, task)
    ensures IsWorking(db, plan, scenario, task)
  {
    if LookupsOk(db, op) {
      if IsTaskOp(op) {
        OneKind(op);
        hide LookupsOk, IsTaskOp, IsRunOp, IsRoundOp, AnswerTask, AnswerRun, AnswerRound, AnswerAdmin, IsExhausted, IsWorking;
        TaskOpStartsNothing(db, w, op, plan, scenario, task);
      } else if op.Activate? {
        ActivationStartsNothing(db, w, op.id, op.prev, plan, scenario, task);
        hide LookupsOk, ActivateRound, IsExhausted, IsWorking;
      } else {
        hide LookupsOk, IsExhausted;
        OtherRequestsMoveNoTask(db, w, op);
        hide Apply;
      }
    }
  }

  /** None of the requests reopens the scenario. */
  ghost predicate KeepsExhausted(db: Db, events: seq<Event>, plan: string, scenario: string) {
    forall i :: 0 <= i < |events| ==> !Reopens(After(db, events[..i]), events[i].op, plan, scenario)
  }

  /** From the moment a scenario is exhausted until a request reopens it, it stays exhausted and the tasks working on it in
      its plan are among those that already were. */
  lemma {:induction false} ExhaustedUntilReleased(db: Db, events: seq<Event>, plan: string, scenario: string)
    requires PoliciesOk(db) && IsExhausted(db, plan, scenario) && KeepsExhausted(db, events, plan, scenario)
    ensures IsExhausted(After(db, events), plan, scenario)
    ensures forall task :: IsWorking(After(db, events), plan, scenario, task) ==> IsWorking(db, plan, scenario, task)
    decreases |events|
  {
    if events != [] {
      var n := |events| - 1;
      var before := events[..n];
      assert forall i :: 0 <= i <= n ==> events[..i] == before[..i];
      assert before[..n] == before;
      hide IsExhausted, IsWorking, Apply, Reopens, PoliciesOk;
      assert KeepsExhausted(db, before, plan, scenario);
      ExhaustedUntilReleased(db, before, plan, scenario);
      PoliciesStayOk(db, before);
      var mid := After(db, before);
      var e := events[n];
      ExhaustionLasts(mid, e.world, e.op, plan, scenario);
      forall task | IsWorking(Apply(mid, e.world, e.op), plan, scenario, task) ensures IsWorking(db, plan, scenario, task) {
        NothingStarts(mid, e.world, e.op, plan, scenario, task);
      }
    }
  }

  // ── the exact condition ────────────────────────────────────────────────

  /** Budgets belong to the plan of their scenario. */
  lemma OnlyOwnPlanIsExhausted(db: Db, plan: string, scenario: string)
    requires Inv(db) && IsExhausted(db, plan, scenario)
    ensures scenario in db.scenarios && db.scenarios[scenario].planId == plan
  {
    var k :| k in db.budgets && k.plan == plan && k.scenario == scenario && AtCap(db, k);
    assert BudgetOk(db, k);
  }

  /** Starting a task is accepted exactly when the transition is allowed and no scenario it owns in its own plan is
      exhausted there. Scenarios of other plans never hold it back: their budgets are looked up under the task's plan. */
  lemma StartAcceptedExactly(db: Db, id: string)
    requires Inv(db) && id in db.tasks
    ensures var t := db.tasks[id];
            SetTaskStatus(db, id, InProgress).Ok?
            <==> && CanMove(t.status, InProgress)
                 && forall s :: s in t.parents && s in db.scenarios && db.scenarios[s].planId == t.planId ==>
                      !IsExhausted(db, t.planId, s)
  {
    var t := db.tasks[id];
    OldTaskOk(db, id);
    OldRoundOk(db, t.roundId);
    forall s | IsExhausted(db, t.planId, s) ensures s in db.scenarios && db.scenarios[s].planId == t.planId {
      OnlyOwnPlanIsExhausted(db, t.planId, s);
    }
    hide Inv, IsExhausted;
    if t.parents != [] { assert t.parents[0] in t.parents; }
  }

  /** Hence a task of another plan starts on an exhausted scenario. */
  lemma OtherPlanStarts(db: Db, id: string, scenario: string)
    requires Inv(db) && id in db.tasks && scenario in db.scenarios
    requires db.tasks[id].parents == [scenario] && db.tasks[id].status.Todo?
    requires IsExhausted(db, db.scenarios[scenario].planId, scenario)
    ensures SetTaskStatus(db, id, InProgress).Ok? <==> db.tasks[id].planId != db.scenarios[scenario].planId
  {
    StartAcceptedExactly(db, id);
    hide Inv, IsExhausted, SetTaskStatus;
  }

  // ── pauses ─────────────────────────────────────────────────────────────

  lemma SameExhaustion(a: Db, b: Db, plan: string, scenario: string)
    requires b == a.(tasks := b.tasks, verdicts := b.verdicts, rounds := b.rounds)
    ensures IsExhausted(b, plan, scenario) == IsExhausted(a, plan, scenario) && b.scenarios == a.scenarios
  {
    assert forall k :: AtCap(b, k) == AtCap(a, k);
    hide AtCap;
  }

  /** A task paused by the activation of a round is put back as it was by a start, which is accepted exactly when no scenario
      the task owns in its plan is exhausted. */
  lemma PauseIsUndone(db: Db, w: World, id: string, prev: Option<string>, task: string)
    requires Inv(db) && ActivationError(db, id).None? && db.rounds[id].policy.Pause?
    requires IsInFlight(db, db.rounds[id].planId, task)
    ensures var n := SetTaskStatus(ActivateRound(db, w, id, prev).db, task, InProgress);
            var t := db.tasks[task];
            && (n.Ok? <==> forall s :: s in t.parents && s in db.scenarios && db.scenarios[s].planId == t.planId ==>
                  !IsExhausted(db, t.planId, s))
            && (n.Ok? ==> task in n.value && n.value[task] == t)
  {
    var next := ActivateRound(db, w, id, prev).db;
    ActivationStopsWork(db, w, id, prev);
    ActivationKeeps(db, w, id, prev);
    ActivationFrame(db, w, id, prev);
    hide ActivateRound, ActivationError, Inv, IsExhausted;
    StartAcceptedExactly(next, task);
    var t := db.tasks[task];
    forall s ensures IsExhausted(next, t.planId, s) == IsExhausted(db, t.planId, s) && next.scenarios == db.scenarios {
      SameExhaustion(db, next, t.planId, s);
    }
    hide SetTaskStatus;
    StartedRow(next, task);
  }

  lemma StartedRow(db: Db, id: string)
    requires id in db.tasks
    ensures var n := SetTaskStatus(db, id, InProgress);
            n.Ok? ==> id in n.value && n.value[id] == db.tasks[id].(status := InProgress)
  {
    hide Unavailable;
  }

  // ── verdicts ───────────────────────────────────────────────────────────

  /** A pass proven by a fresh clean run of the scenario and the plan. */
  predicate IsProvenPass(db: Db, w: World, plan: string, scenario: string, verdict: Verdict, evidence: Option<string>) {
    && verdict.Passing? && evidence.Some? && ParseRef(evidence.value).RunRef?
    && Proves(db, ParseRef(evidence.value).run, plan, scenario)
    && IsFresh(db, w, db.runs[ParseRef(evidence.value).run])
  }

  /** Any verdict a caller may submit, without evidence or with a text that names no run. */
  predicate IsUnproven(verdict: Verdict, evidence: Option<string>) {
    !verdict.NeedsVerification? && (evidence.Some? ==> ParseRef(evidence.value).FreeText?)
  }

  /** On an exhausted scenario, through its own plan, the only verdict accepted is a pass proven by a fresh clean run. */
  lemma OnlyProvenPassIsAccepted(db: Db, w: World, plan: string, scenario: string, verdict: Verdict, evidence: Option<string>)
    requires Inv(db) && IsExhausted(db, plan, scenario)
    ensures VerdictError(db, w, plan, scenario, verdict, evidence).None?
            <==> plan in db.plans && IsProvenPass(db, w, plan, scenario, verdict, evidence)
  {
    if verdict.Passing? && evidence.Some? && ParseRef(evidence.value).RunRef? {
      if VerdictError(db, w, plan, scenario, verdict, evidence).None? {
        AcceptedPassIsProven(db, w, plan, scenario, evidence.value);
      }
    }
    hide Inv, IsExhausted, IsFresh, ParseRef;
  }

  /** Through another plan a verdict is never proven, since the runs of the scenario are of its own plan, and no budget is
      found: exactly the unproven ones are accepted. */
  lemma ForeignVerdict(db: Db, w: World, plan: string, scenario: string, verdict: Verdict, evidence: Option<string>)
    requires Inv(db) && plan in db.plans && scenario in db.scenarios && db.scenarios[scenario].planId != plan
    ensures VerdictError(db, w, plan, scenario, verdict, evidence).None? <==> IsUnproven(verdict, evidence)
  {
    if IsExhausted(db, plan, scenario) { OnlyOwnPlanIsExhausted(db, plan, scenario); }
    hide IsExhausted, IsFresh, ParseRef, ScenariosOk, RoundsOk, TasksOk, BudgetsOk, VerdictsOk, FinishOk;
    if evidence.Some? && ParseRef(evidence.value).RunRef? {
      var id := ParseRef(evidence.value).run;
      assert id in db.runs ==> RunOk(db, db.runs[id]);
    }
  }

  /** A verdict on an exhausted scenario posted on a round is accepted exactly when, on a round of its plan, it is a pass
      proven by a fresh clean run, and on a round of another plan, it is not proven by a run at all. */
  lemma PostOnExhausted(db: Db, w: World, round: string, scenario: string, verdict: Verdict, evidence: Option<string>)
    requires Inv(db) && round in db.rounds && scenario in db.scenarios
    requires IsExhausted(db, db.scenarios[scenario].planId, scenario)
    ensures PostVerdict(db, w, round, scenario, verdict, evidence).Ok?
            <==> if db.rounds[round].planId == db.scenarios[scenario].planId
                 then IsProvenPass(db, w, db.rounds[round].planId, scenario, verdict, evidence)
                 else IsUnproven(verdict, evidence)
  {
    var plan := db.rounds[round].planId;
    OldRoundOk(db, round);
    hide Inv, IsExhausted, VerdictError, IsProvenPass, IsUnproven;
    if plan == db.scenarios[scenario].planId {
      OnlyProvenPassIsAccepted(db, w, plan, scenario, verdict, evidence);
    } else {
      ForeignVerdict(db, w, plan, scenario, verdict, evidence);
    }
  }

  /** What is asked of one entry of a completion: a scenario the task owns and of the task's plan; where that scenario is
      exhausted, a proven pass. */
  ghost predicate IsEntryAccepted(db: Db, w: World, t: Task, e: Entry) {
    var s := ResolveRef(db, t.planId, e.scenario);
    && s.Some? && s.value in t.parents && s.value in db.scenarios && db.scenarios[s.value].planId == t.planId
    && (if IsExhausted(db, db.scenarios[s.value].planId, s.value)
        then IsProvenPass(db, w, t.planId, s.value, e.verdict, Some(e.evidence))
        else CheckRef(db, w, t.planId, s.value, e.verdict, Some(e.evidence)).Ok?)
  }

  lemma EntryAccepted(db: Db, w: World, t: Task, e: Entry)
    requires Inv(db) && t.planId in db.plans
    ensures var s := ResolveRef(db, t.planId, e.scenario);
            IsEntryAccepted(db, w, t, e)
            <==> && s.Some? && s.value in t.parents
                 && VerdictError(db, w, t.planId, s.value, e.verdict, Some(e.evidence)).None?
  {
    var s := ResolveRef(db, t.planId, e.scenario);
    if s.Some? {
      ReferenceIsOwn(db, t.planId, e.scenario);
      hide Inv, ResolveRef, IsExhausted, IsProvenPass, CheckRef;
      if IsExhausted(db, t.planId, s.value) {
        OnlyProvenPassIsAccepted(db, w, t.planId, s.value, e.verdict, Some(e.evidence));
      }
    }
  }

  /** A reference of a completion never leaves the plan. */
  lemma ReferenceIsOwn(db: Db, plan: string, ref: string)
    requires Inv(db) && ResolveRef(db, plan, ref).Some?
    ensures var s := ResolveRef(db, plan, ref).value; s in db.scenarios && db.scenarios[s].planId == plan
  {
    assert ScenariosOk(db);
    hide RoundsOk, TasksOk, RunsOk, BudgetsOk, VerdictsOk;
  }

  /** A completion has no such way round: references are resolved within the task's plan. It is accepted exactly when the task
      is in progress, the evidence is not blank, and every entry is a proven pass where its scenario is exhausted. */
  lemma CompletionOnExhausted(db: Db, w: World, id: string, e: Evidence)
    requires Inv(db) && id in db.tasks
    ensures var t := db.tasks[id];
            CompleteTask(db, w, id, e).Ok?
            <==> && t.status.InProgress? && EvidenceError(e).None?
                 && forall i :: 0 <= i < |e.entries| ==> IsEntryAccepted(db, w, t, e.entries[i])
  {
    var t := db.tasks[id];
    OldTaskOk(db, id);
    OldRoundOk(db, t.roundId);
    CompletionAcceptedExactly(db, w, id, e, ("", ""));
    hide CompleteTask, Inv, EvidenceError, IsEntryAccepted, VerdictError, ResolveRef;
    forall i | 0 <= i < |e.entries|
      ensures var s := ResolveRef(db, t.planId, e.entries[i].scenario);
              IsEntryAccepted(db, w, t, e.entries[i])
              <==> && s.Some? && s.value in t.parents
                   && VerdictError(db, w, t.planId, s.value, e.entries[i].verdict, Some(e.entries[i].evidence)).None?
    {
      EntryAccepted(db, w, t, e.entries[i]);
    }
  }

  /** A scenario of plan P at its cap, and an active round of plan Q. */
  const CROSSED := EMPTY.(
    plans := map["P" := "J", "Q" := "J"],
    scenarios := map["S" := Scenario("P", "SCN-1", "g", "w", "t", true, false)],
    codes := map[("P", "SCN-1") := "S"],
    rounds := map["R" := Round("Q", "ROUND-1", 1, ForwardOnly, Pause, Active, true)],
    runs := map["X" := Run(None, Some("P"), None, Some("S"), None, None, [], [], None,
                           Some(Tables.Finish(0, Failure, ExecOutcome(Some(1), None, false, None), Some(Product),
                                              Some("caller:x"), None)))],
    budgets := map[Key("P", "S", Product, "caller:x") := Budget(3, 3, "X", "X", None)])

  lemma CrossedIsExhausted()
    ensures Inv(CROSSED)
    ensures IsExhausted(CROSSED, "P", "S")
  {
    var k := Key("P", "S", Product, "caller:x");
    assert AtCap(CROSSED, k) && k in CROSSED.budgets;
  }

  /** There the round takes a pass without any evidence, and a failure too, while the scenario's own plan takes neither. */
  lemma OtherRoundTakesUnprovenPass(w: World)
    ensures Inv(CROSSED) && IsExhausted(CROSSED, "P", "S")
    ensures PostVerdict(CROSSED, w, "R", "S", Passing, None).Ok? && PostVerdict(CROSSED, w, "R", "S", Failing, None).Ok?
    ensures VerdictError(CROSSED, w, "P", "S", Passing, None).Some? && VerdictError(CROSSED, w, "P", "S", Failing, None).Some?
  {
    CrossedIsExhausted();
    hide Inv, IsExhausted, PostVerdict, VerdictError;
    PostOnExhausted(CROSSED, w, "R", "S", Passing, None);
    PostOnExhausted(CROSSED, w, "R", "S", Failing, None);
    OnlyProvenPassIsAccepted(CROSSED, w, "P", "S", Passing, None);
    OnlyProvenPassIsAccepted(CROSSED, w, "P", "S", Failing, None);
  }

  /** A request that changes the row of an exhausted scenario in any round writes a proven pass, or carries the row of the
      previous round into an activated one of its plan, or is a post through a round of another plan, unproven. */
  lemma ExhaustedRowsAreProven(db: Db, w: World, op: Op, round: string, scenario: string)
    requires Inv(db) && EvidenceOk(db) && LookupsOk(db, op)
    requires round in db.rounds && scenario in db.scenarios && IsExhausted(db, db.scenarios[scenario].planId, scenario)
    requires var next := Answer(db, w, op).db;
             && (round, scenario) in next.verdicts
             && !((round, scenario) in db.verdicts && next.verdicts[(round, scenario)] == db.verdicts[(round, scenario)])
    ensures var row := Answer(db, w, op).db.verdicts[(round, scenario)];
            if db.rounds[round].planId == db.scenarios[scenario].planId then
              || (op.Activate? && op.id == round)
              || (ClaimsRun(row) && Proves(db, ClaimedRun(row), db.rounds[round].planId, scenario))
            else op.Post? && op.roundId == round && op.scenario == scenario && IsUnproven(op.verdict, op.ref)
  {
    VerdictsAfter(db, w, op);
    hide Answer, CompleteTask, PostVerdict, ActivateRound, Inv, EvidenceOk, LookupsOk, IsExhausted, ClaimsRun, Proves, IsUnproven;
    if op.EndTask? {
      CompletedRowIsProven(db, w, op.id, op.evidence, round, scenario);
    } else if op.Post? {
      PostedRowIsProven(db, w, op.roundId, op.scenario, op.verdict, op.ref, round, scenario);
    } else if op.Activate? {
      ActivationWritesItsRound(db, w, op.id, op.prev, round, scenario);
    } else {
      OtherRequestsWriteNoVerdict(db, w, op);
    }
  }

  lemma ActivationWritesItsRound(db: Db, w: World, id: string, prev: Option<string>, round: string, scenario: string)
    requires round in db.rounds && scenario in db.scenarios
    requires var n := ActivateRound(db, w, id, prev).db.verdicts;
             (round, scenario) in n && !((round, scenario) in db.verdicts && n[(round, scenario)] == db.verdicts[(round, scenario)])
    ensures id == round && db.rounds[round].planId == db.scenarios[scenario].planId
  {
    hide ActivatedRounds, Interrupted, LateActivationError, ActivationError, Carried;
  }

  lemma PostedRowIsProven(db: Db, w: World, id: string, s: string, verdict: Verdict, evidence: Option<string>,
                          round: string, scenario: string)
    requires Inv(db) && round in db.rounds && scenario in db.scenarios && IsExhausted(db, db.scenarios[scenario].planId, scenario)
    requires var n := PostVerdict(db, w, id, s, verdict, evidence);
             n.Ok? && (round, scenario) in n.value
             && !((round, scenario) in db.verdicts && n.value[(round, scenario)] == db.verdicts[(round, scenario)])
    ensures id == round && s == scenario
    ensures var row := PostVerdict(db, w, id, s, verdict, evidence).value[(round, scenario)];
            if db.rounds[round].planId == db.scenarios[scenario].planId
            then ClaimsRun(row) && Proves(db, ClaimedRun(row), db.rounds[round].planId, scenario)
            else IsUnproven(verdict, evidence)
  {
    hide VerdictError, Inv, IsExhausted, Proves, ParseRef, IsUnproven;
    assert id == round && s == scenario;
    PostOnExhausted(db, w, round, scenario, verdict, evidence);
  }

  lemma CompletedRowIsProven(db: Db, w: World, id: string, e: Evidence, round: string, scenario: string)
    requires Inv(db) && round in db.rounds && scenario in db.scenarios && IsExhausted(db, db.scenarios[scenario].planId, scenario)
    requires var n := CompleteTask(db, w, id, e);
             n.Ok? && (round, scenario) in n.value.1
             && !((round, scenario) in db.verdicts && n.value.1[(round, scenario)] == db.verdicts[(round, scenario)])
    ensures db.rounds[round].planId == db.scenarios[scenario].planId
    ensures var row := CompleteTask(db, w, id, e).value.1[(round, scenario)];
            ClaimsRun(row) && Proves(db, ClaimedRun(row), db.rounds[round].planId, scenario)
  {
    var t := db.tasks[id];
    OldTaskOk(db, id);
    var entries := Resolved(db, t, e.entries).value;
    var v := (round, scenario);
    assert ScenariosOk(db);
    ResolvedOk(db, t, e.entries);
    hide Inv, ScenariosOk, IsExhausted, Proves, ParseRef, Resolved, EvidenceError, VerdictError;
    RefusedPointwise(db, w, t.planId, entries);
    RecordedExactly(db.verdicts, t.roundId, entries, v);
    hide Recorded, FirstRefused;
    var i :| IsLastFor(entries, scenario, i)
             && Recorded(db.verdicts, t.roundId, entries)[v] == VerdictRow(entries[i].verdict, Some(entries[i].evidence));
    OnlyProvenPassIsAccepted(db, w, t.planId, scenario, entries[i].verdict, Some(entries[i].evidence));
  }

  /** Ending a task with a summary alone checks no verdict and writes none, exhausted or not. */
  lemma SummaryAloneEndsTask(db: Db, w: World, id: string, summary: string)
    requires id in db.tasks && db.tasks[id].status.InProgress?
    ensures var n := CompleteTask(db, w, id, Evidence([], Some(summary), map[]));
            n.Ok? && n.value.1 == db.verdicts && n.value.0[id].status.Done?
  {
  }

  // ── release ────────────────────────────────────────────────────────────

  /** A release needs a standing decision of the scenario's plan and a bucket to release, and leaves exactly the buckets
      of the scenario (of the signature, if one is given) at zero, their lifetime totals unchanged. */
  lemma ReleaseExactly(db: Db, ref: string, plan: Option<string>, cwdPlan: Option<string>, signature: Option<string>,
                       decision: string, s: string)
    requires ResolveScenario(db, ref, plan, cwdPlan) == Ok(s) && s in db.scenarios
    ensures var n := ReleaseBudget(db, ref, plan, cwdPlan, signature, decision);
            var p := db.scenarios[s].planId;
            && (n.Ok? <==> && decision in db.decisions && db.decisions[decision].planId == p && !db.decisions[decision].superseded
                           && exists k :: k in db.budgets && IsReleased(k, p, s, signature))
            && (n.Ok? ==> forall k :: k in db.budgets ==>
                  && k in n.value && n.value[k].total == db.budgets[k].total
                  && (if IsReleased(k, p, s, signature) then n.value[k].count == 0 && n.value[k].releasedBy == Some(decision)
                      else n.value[k] == db.budgets[k]))
  {
    hide ResolveScenario;
  }

  /** A full release ends the exhaustion: caps are at least one. */
  lemma FullReleaseEndsExhaustion(db: Db, plan: string, scenario: string, decision: string)
    requires Autonomy.Inv(db.policies)
    ensures !IsExhausted(db.(budgets := ReleasedBudgets(db, plan, scenario, None, decision)), plan, scenario)
  {
    var next := db.(budgets := ReleasedBudgets(db, plan, scenario, None, decision));
    if plan in db.plans {
      Autonomy.HitHasProject(db.policies, db.plans[plan], Some(plan), None, None);
      CapPositive(next, plan);
    }
    hide CapOf;
    forall k | k in next.budgets && k.plan == plan && k.scenario == scenario ensures !AtCap(next, k) {
      assert next.budgets[k].count == 0;
    }
  }

  lemma CapPositive(db: Db, plan: string)
    requires plan in db.plans && Autonomy.Inv(db.policies)
    ensures 1 <= CapOf(db, plan) <= 100
  {
    Autonomy.HitHasProject(db.policies, db.plans[plan], Some(plan), None, None);
  }
}
