/** The tables of the verification-integrity surface, and the checks every handler shares. */
module Tables {
  import opened Wrappers
  import opened Text
  import opened Classify
  import opened Cause
  import Autonomy
  import Fingerprint
  import SortedMap

  datatype Verdict = Passing | Failing | Impacted | Retired | NeedsVerification

  datatype RunResult = Success | Failure | Aborted

  datatype TaskStatus = Todo | InProgress | Blocked | Done | Cancelled

  datatype RoundStatus = Planning | Active | Completed

  datatype RoundMode = StrictRegression | ForwardOnly

  datatype InFlightPolicy = Pause | Abort | ContinueOnNoImpact

  datatype Scenario = Scenario(planId: string, code: string, given: string, when: string, then_: string,
                               confirmed: bool, retired: bool)

  /** A verdict claimed for a scenario, with its evidence reference. */
  datatype Entry = Entry(scenario: string, verdict: Verdict, evidence: string)

  datatype Evidence = Evidence(entries: seq<Entry>, summary: Option<string>, extras: map<string, string>)

  datatype Task = Task(roundId: string, planId: string, parents: seq<string>, status: TaskStatus, evidence: Option<Evidence>)

  datatype Round = Round(planId: string, code: string, number: int, mode: RoundMode, policy: InFlightPolicy,
                         status: RoundStatus, baselined: bool)

  /** Terminal state of a run. A legacy finish records neither outcome nor class. */
  datatype Finish = Finish(at: int, result: RunResult, outcome: ExecOutcome, class_: Option<FailureClass>,
                           signature: Option<string>, identity: Option<CauseIdentity>)

  datatype Run = Run(taskId: Option<string>, planId: Option<string>, roundId: Option<string>, scenarioId: Option<string>,
                     command: Option<seq<string>>, cwd: Option<string>, globs: seq<string>, tools: SortedMap.Entries,
                     fingerprint: Option<string>, finish: Option<Finish>)

  datatype Key = Key(plan: string, scenario: string, class_: FailureClass, signature: string)

  datatype Budget = Budget(count: nat, total: nat, firstRun: string, lastRun: string, releasedBy: Option<string>)

  datatype VerdictRow = VerdictRow(verdict: Verdict, evidence: Option<string>)

  datatype Decision = Decision(planId: string, superseded: bool)

  /** Tables keyed by id; `codes` is the unique index of scenarios by plan and short code; `plans` gives each plan's
      project; `pending` holds the plans with an unresolved disruption review. */
  datatype Db = Db(
    plans: map<string, string>, policies: seq<Autonomy.Policy>,
    scenarios: map<string, Scenario>, codes: map<(string, string), string>,
    tasks: map<string, Task>, rounds: map<string, Round>, runs: map<string, Run>, budgets: map<Key, Budget>,
    verdicts: map<(string, string), VerdictRow>, decisions: map<string, Decision>, pending: set<string>)

  datatype Error = Missing | Invalid | Conflict | EvidenceRequired | BadTransition | EvidenceRunInvalid | EvidenceStale
    | BudgetExhausted | InfrastructureUnresolved | DisruptionPending | BaselineLocked

  /** What a request sees of the outside: the digest, the repository, the workspace as it is now, and the clock. */
  datatype World = World(
    sha: string -> string,
    inRepo: string -> Option<string>,
    fingerprint: (string, seq<string>, seq<string>, SortedMap.Entries, string) -> Option<string>,
    now: int)

  // ── budgets ────────────────────────────────────────────────────────────

  /** The cap of the plan's policy, else the global one, else the default. */
  function CapOf(db: Db, plan: string): int
    requires plan in db.plans
  {
    Autonomy.PlanCap(db.policies, db.plans[plan], plan)
  }

  predicate AtCap(db: Db, k: Key) {
    k in db.budgets && k.plan in db.plans && db.budgets[k].count >= CapOf(db, k.plan)
  }

  /** Some budget of the scenario in the plan has reached its cap. */
  ghost predicate IsExhausted(db: Db, plan: string, scenario: string) {
    exists k :: k in db.budgets && k.plan == plan && k.scenario == scenario && AtCap(db, k)
  }

  /** `ensure_available`: a plan without scenarios to check is not even looked up. */
  ghost function Unavailable(db: Db, plan: string, scenarios: seq<string>): Option<Error> {
    if scenarios == [] then None
    else if plan !in db.plans then Some(Missing)
    else if exists s :: s in scenarios && IsExhausted(db, plan, s) then Some(BudgetExhausted)
    else None
  }

  // ── evidence ───────────────────────────────────────────────────────────

  datatype Ref = RunRef(run: string) | FreeText | EmptyRunRef

  function ParseRef(raw: string): Ref {
    match StripPrefix(Trim(raw), "run:")
    case None => FreeText
    case Some(id) => if Trim(id) == "" then EmptyRunRef else RunRef(Trim(id))
  }

  predicate IsCleanPass(r: Run) {
    r.finish.Some? && r.finish.value.result.Success? && r.finish.value.outcome.Passed()
  }

  function ContractOf(db: Db, w: World, scenario: Option<string>): Option<string> {
    match scenario
    case None => Some("")
    case Some(s) =>
      if s !in db.scenarios then None
      else
        var scn := db.scenarios[s];
        Some(Fingerprint.ContractHash(w.sha, scn.given, scn.when, scn.then_))
  }

  /** The recorded fingerprint equals the one computed now; anything that cannot be computed is stale. */
  predicate IsFresh(db: Db, w: World, r: Run) {
    && r.fingerprint.Some? && r.cwd.Some? && ContractOf(db, w, r.scenarioId).Some?
    && w.fingerprint(r.cwd.value, r.globs, r.command.GetOr([]), r.tools, ContractOf(db, w, r.scenarioId).value)
       == r.fingerprint
  }

  function RunEvidenceError(db: Db, w: World, plan: string, scenario: string, verdict: Verdict, id: string): Option<Error> {
    if id !in db.runs then Some(EvidenceRunInvalid)
    else
      var r := db.runs[id];
      if r.scenarioId != Some(scenario) || r.planId != Some(plan) || r.finish.None? then Some(EvidenceRunInvalid)
      else if verdict.Passing? && !IsCleanPass(r) then Some(EvidenceRunInvalid)
      else if verdict.Failing? && !r.finish.value.result.Failure? then Some(EvidenceRunInvalid)
      else if !verdict.Passing? && !verdict.Failing? then Some(EvidenceRunInvalid)
      else if !IsFresh(db, w, r) then Some(EvidenceStale)
      else None
  }

  /** Whether the verdict is proven by a run, or why the reference is refused. */
  function CheckRef(db: Db, w: World, plan: string, scenario: string, verdict: Verdict, evidence: Option<string>)
    : Result<bool, Error>
  {
    if verdict.NeedsVerification? then Err(Invalid)
    else match evidence
      case None => Ok(false)
      case Some(raw) =>
        match ParseRef(raw)
        case FreeText => Ok(false)
        case EmptyRunRef => Err(EvidenceRunInvalid)
        case RunRef(id) =>
          match RunEvidenceError(db, w, plan, scenario, verdict, id)
          case Some(e) => Err(e)
          case None => Ok(true)
  }

  /** `ensure_completion_budget`. */
  ghost function BudgetError(db: Db, plan: string, scenario: string, verdict: Verdict, proven: bool): Option<Error> {
    if plan !in db.plans then Some(Missing)
    else if IsExhausted(db, plan, scenario) && !(verdict.Passing? && proven) then Some(BudgetExhausted)
    else None
  }

  /** Why a verdict on a scenario is refused within a plan, if it is. */
  ghost function VerdictError(db: Db, w: World, plan: string, scenario: string, verdict: Verdict, evidence: Option<string>)
    : Option<Error>
  {
    match CheckRef(db, w, plan, scenario, verdict, evidence)
    case Err(e) => Some(e)
    case Ok(proven) => BudgetError(db, plan, scenario, verdict, proven)
  }

  // ── scenario references ────────────────────────────────────────────────

  /** An id of the plan, or a short code within it. */
  function ResolveRef(db: Db, plan: string, ref: string): Option<string> {
    if ref in db.scenarios && db.scenarios[ref].planId == plan then Some(ref)
    else if (plan, ref) in db.codes then Some(db.codes[(plan, ref)])
    else None
  }

  /** An id of any plan, or a short code within the given plan (else within the active plan of the caller's directory). */
  function ResolveScenario(db: Db, ref: string, plan: Option<string>, cwdPlan: Option<string>): Result<string, Error> {
    var r := Trim(ref);
    if r == "" then Err(Invalid)
    else if r in db.scenarios then Ok(r)
    else match if plan.Some? then plan else cwdPlan
      case None => Err(Invalid)
      case Some(p) => match ResolveRef(db, p, r) case Some(s) => Ok(s) case None => Err(Missing)
  }

  /** SQLite's `LIKE 'CHORE%'`, which ignores case. */
  predicate IsChoreCode(code: string) {
    "chore" <= Lower(code)
  }
}
