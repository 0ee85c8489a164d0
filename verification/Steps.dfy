/** Task, round and budget requests, and the step function over all requests. */
module Steps {
  import opened Wrappers
  import opened Text
  import opened Tables
  import opened RunLifecycle
  import Autonomy

  type Tasks = map<string, Task>

  type Rounds = map<string, Round>

  type Verdicts = map<(string, string), VerdictRow>

  const CHORE_ROUND := "CHORE-R"

  // ── tasks ──────────────────────────────────────────────────────────────

  predicate CanMove(from: TaskStatus, to: TaskStatus) {
    match from
    case Todo => to.InProgress? || to.Cancelled? || to.Blocked?
    case InProgress => to.Done? || to.Cancelled? || to.Blocked?
    case Blocked => to.Todo? || to.InProgress? || to.Cancelled?
    case _ => false
  }

  function CreateTask(db: Db, id: string, round: string, parents: seq<string>): Result<Tasks, Error> {
    if round !in db.rounds then Err(Missing)
    else if id in db.tasks then Err(Conflict)
    else Ok(db.tasks[id := Task(round, db.rounds[round].planId, parents, Todo, None)])
  }

  /** A chore is created in progress, without parents, in the chore round it is given. */
  function CreateChore(db: Db, id: string, round: string): Result<Tasks, Error> {
    if round !in db.rounds then Err(Missing)
    else if id in db.tasks then Err(Conflict)
    else Ok(db.tasks[id := Task(round, db.rounds[round].planId, [], InProgress, None)])
  }

  ghost function SetTaskStatus(db: Db, id: string, target: TaskStatus): Result<Tasks, Error> {
    if target.Done? then Err(EvidenceRequired)
    else if id !in db.tasks then Err(Missing)
    else
      var t := db.tasks[id];
      if !CanMove(t.status, target) then Err(BadTransition)
      else match if target.InProgress? then Unavailable(db, t.planId, t.parents) else None
        case Some(e) => Err(e)
        case None => Ok(db.tasks[id := t.(status := target)])
  }

  /** `validate_for_done`. */
  function EvidenceError(e: Evidence): Option<Error> {
    if e.entries == [] && e.summary.None? then Some(EvidenceRequired)
    else if exists i :: 0 <= i < |e.entries| && Trim(e.entries[i].evidence) == "" then Some(Invalid)
    else None
  }

  /** Every reference replaced by the id of a parent scenario of the task. */
  function Resolved(db: Db, t: Task, entries: seq<Entry>): Option<seq<Entry>> {
    if entries == [] then Some([])
    else match ResolveRef(db, t.planId, entries[0].scenario)
      case None => None
      case Some(s) =>
        if s !in t.parents then None
        else match Resolved(db, t, entries[1..])
          case None => None
          case Some(rest) => Some([entries[0].(scenario := s)] + rest)
  }

  /** The first verdict the gates refuse. */
  ghost function FirstRefused(db: Db, w: World, plan: string, entries: seq<Entry>): Option<Error> {
    if entries == [] then None
    else match VerdictError(db, w, plan, entries[0].scenario, entries[0].verdict, Some(entries[0].evidence))
      case Some(e) => Some(e)
      case None => FirstRefused(db, w, plan, entries[1..])
  }

  function Recorded(verdicts: Verdicts, round: string, entries: seq<Entry>): Verdicts
    decreases |entries|
  {
    if entries == [] then verdicts
    else Recorded(verdicts[(round, entries[0].scenario) := VerdictRow(entries[0].verdict, Some(entries[0].evidence))],
                  round, entries[1..])
  }

  /** Resolution entry by entry. */
  lemma {:induction false} ResolvedPointwise(db: Db, t: Task, entries: seq<Entry>)
    ensures var r := Resolved(db, t, entries);
            && (r.Some? <==> forall i :: 0 <= i < |entries| ==>
                  ResolveRef(db, t.planId, entries[i].scenario).Some? && ResolveRef(db, t.planId, entries[i].scenario).value in t.parents)
            && (r.Some? ==> |r.value| == |entries| && forall i :: 0 <= i < |entries| ==>
                  && ResolveRef(db, t.planId, entries[i].scenario) == Some(r.value[i].scenario)
                  && r.value[i].verdict == entries[i].verdict && r.value[i].evidence == entries[i].evidence)
  {
    hide ResolveRef;
    if entries != [] {
      ResolvedPointwise(db, t, entries[1..]);
      assert forall i :: 0 <= i < |entries| - 1 ==> entries[1..][i] == entries[i + 1];
      assert forall i :: 1 <= i < |entries| ==> entries[i] == entries[1..][i - 1];
    }
  }

  lemma {:induction false} RefusedPointwise(db: Db, w: World, plan: string, entries: seq<Entry>)
    ensures FirstRefused(db, w, plan, entries).None? <==> forall i :: 0 <= i < |entries| ==>
              VerdictError(db, w, plan, entries[i].scenario, entries[i].verdict, Some(entries[i].evidence)).None?
  {
    hide VerdictError;
    if entries != [] {
      RefusedPointwise(db, w, plan, entries[1..]);
      assert forall i :: 1 <= i < |entries| ==> entries[i] == entries[1..][i - 1];
      assert forall i :: 0 <= i < |entries| - 1 ==> entries[1..][i] == entries[i + 1];
    }
  }

  predicate IsLastFor(entries: seq<Entry>, scenario: string, i: int) {
    0 <= i < |entries| && entries[i].scenario == scenario && forall j :: i < j < |entries| ==> entries[j].scenario != scenario
  }

  /** The row of a scenario is that of its last entry; rows without an entry stay. */
  lemma {:induction false} RecordedExactly(verdicts: Verdicts, round: string, entries: seq<Entry>, v: (string, string))
    ensures var n := Recorded(verdicts, round, entries);
            if v.0 == round && exists i :: 0 <= i < |entries| && entries[i].scenario == v.1 then
              v in n && exists i :: IsLastFor(entries, v.1, i) && n[v] == VerdictRow(entries[i].verdict, Some(entries[i].evidence))
            else (v in n <==> v in verdicts) && (v in n ==> n[v] == verdicts[v])
    decreases |entries|
  {
    if entries != [] {
      var rest := entries[1..];
      var next := verdicts[(round, entries[0].scenario) := VerdictRow(entries[0].verdict, Some(entries[0].evidence))];
      RecordedExactly(next, round, rest, v);
      assert forall i :: 0 <= i < |rest| ==> rest[i] == entries[i + 1];
      var n := Recorded(verdicts, round, entries);
      if v.0 == round && exists i :: 0 <= i < |rest| && rest[i].scenario == v.1 {
        var i :| IsLastFor(rest, v.1, i) && n[v] == VerdictRow(rest[i].verdict, Some(rest[i].evidence));
        assert IsLastFor(entries, v.1, i + 1);
      } else if v == (round, entries[0].scenario) {
        assert IsLastFor(entries, v.1, 0);
      }
    }
  }

  ghost function CompleteTask(db: Db, w: World, id: string, e: Evidence): Result<(Tasks, Verdicts), Error> {
    if id !in db.tasks then Err(Missing)
    else
      var t := db.tasks[id];
      if !CanMove(t.status, Done) then Err(BadTransition)
      else if EvidenceError(e).Some? then Err(EvidenceError(e).value)
      else match Resolved(db, t, e.entries)
        case None => Err(Invalid)
        case Some(entries) =>
          match FirstRefused(db, w, t.planId, entries)
          case Some(error) => Err(error)
          case None =>
            Ok((db.tasks[id := t.(status := Done, evidence := Some(e.(entries := entries)))],
                Recorded(db.verdicts, t.roundId, entries)))
  }

  /** A chore ends with a note; no verdict is checked or written. Any task in progress may be ended this way. */
  function FinishChore(db: Db, id: string, note: Option<string>): Result<Tasks, Error> {
    if id !in db.tasks then Err(Missing)
    else
      var t := db.tasks[id];
      var summary := if note.Some? && Trim(note.value) != "" then note.value else "chore completed";
      if !CanMove(t.status, Done) then Err(BadTransition)
      else Ok(db.tasks[id := t.(status := Done, evidence := Some(Evidence([], Some(summary), map[])))])
  }

  // ── rounds ─────────────────────────────────────────────────────────────

  predicate IsNextNumber(db: Db, plan: string, n: int) {
    && (forall r :: r in db.rounds && db.rounds[r].planId == plan ==> db.rounds[r].number < n)
    && (n == 1 || exists r :: r in db.rounds && db.rounds[r].planId == plan && db.rounds[r].number == n - 1)
  }

  predicate CodeTaken(db: Db, plan: string, code: string) {
    exists r :: r in db.rounds && db.rounds[r].planId == plan && db.rounds[r].code == code
  }

  /** `number` is one more than the largest number of the plan. */
  function CreateRound(db: Db, id: string, plan: string, code: string, number: int, mode: RoundMode, policy: InFlightPolicy)
    : Result<Rounds, Error>
  {
    if plan !in db.plans then Err(Missing)
    else if id in db.rounds || CodeTaken(db, plan, code) then Err(Conflict)
    else Ok(db.rounds[id := Round(plan, code, number, mode, policy, Planning, false)])
  }

  predicate NumberTaken(db: Db, plan: string, number: int) {
    exists r :: r in db.rounds && db.rounds[r].planId == plan && db.rounds[r].number == number
  }

  /** The chore round of a plan is inserted active, with number 1. */
  function CreateChoreRound(db: Db, id: string, plan: string): Result<Rounds, Error> {
    if plan !in db.plans then Err(Invalid)
    else if id in db.rounds || CodeTaken(db, plan, CHORE_ROUND) || NumberTaken(db, plan, 1) then Err(Conflict)
    else Ok(db.rounds[id := Round(plan, CHORE_ROUND, 1, ForwardOnly, Pause, Active, false)])
  }

  /** Recording the activation baseline anew takes a standing decision of the round's plan, whatever the round's status. */
  function RebaseRound(db: Db, id: string, decision: string): Result<Rounds, Error> {
    if id !in db.rounds then Err(Missing)
    else if decision !in db.decisions || db.decisions[decision].planId != db.rounds[id].planId
            || db.decisions[decision].superseded then Err(Invalid)
    else Ok(db.rounds[id := db.rounds[id].(baselined := true)])
  }

  predicate IsLatestCompleted(db: Db, plan: string, prev: Option<string>) {
    match prev
    case Some(p) =>
      && p in db.rounds && db.rounds[p].planId == plan && db.rounds[p].status.Completed?
      && forall r :: r in db.rounds && db.rounds[r].planId == plan && db.rounds[r].status.Completed? ==>
           db.rounds[r].number <= db.rounds[p].number
    case None => forall r :: r in db.rounds && db.rounds[r].planId == plan ==> !db.rounds[r].status.Completed?
  }

  /** In-progress tasks of the plan paused or cancelled, as the round's policy says. */
  function Interrupted(db: Db, plan: string, policy: InFlightPolicy): Tasks {
    map t | t in db.tasks ::
      if !policy.ContinueOnNoImpact? && db.tasks[t].status.InProgress? && db.tasks[t].roundId in db.rounds
         && db.rounds[db.tasks[t].roundId].planId == plan
      then db.tasks[t].(status := if policy.Pause? then Blocked else Cancelled)
      else db.tasks[t]
  }

  /** A carried row: a pass whose evidence run is gone or stale needs verification again. */
  function Carried(db: Db, w: World, row: VerdictRow): VerdictRow {
    if row.verdict.Passing? && row.evidence.Some? && ParseRef(row.evidence.value).RunRef?
       && !(ParseRef(row.evidence.value).run in db.runs && IsFresh(db, w, db.runs[ParseRef(row.evidence.value).run]))
    then row.(verdict := NeedsVerification)
    else row
  }

  /** Rows of the previous round that go into the new one: confirmed scenarios of the plan without a row yet. */
  predicate CarriesOver(db: Db, plan: string, round: string, prev: string, scenario: string) {
    && (prev, scenario) in db.verdicts && (round, scenario) !in db.verdicts
    && scenario in db.scenarios && db.scenarios[scenario].planId == plan
    && db.scenarios[scenario].confirmed && !db.scenarios[scenario].retired
  }

  function CarriedOver(db: Db, w: World, plan: string, round: string, prev: string): Verdicts {
    db.verdicts + map k | k in db.verdicts && k.0 == prev && CarriesOver(db, plan, round, prev, k.1)
                    :: (round, k.1) := Carried(db, w, db.verdicts[k])
  }

  /** Another active round of the plan that counts: chore rounds do not. */
  predicate IsBlockedByActive(db: Db, id: string) {
    && id in db.rounds && !IsChoreCode(db.rounds[id].code)
    && exists r :: r in db.rounds && r != id && db.rounds[r].planId == db.rounds[id].planId && db.rounds[r].status.Active?
                   && !IsChoreCode(db.rounds[r].code)
  }

  /** Verdicts after the carry-over of a strict-regression round. */
  function ActivatedVerdicts(db: Db, w: World, id: string, r: Round, prev: Option<string>): Verdicts {
    if r.mode.StrictRegression? && prev.Some? then CarriedOver(db, w, r.planId, id, prev.value) else db.verdicts
  }

  /** Why an activation is refused before anything is done. */
  function ActivationError(db: Db, id: string): Option<Error> {
    if id !in db.rounds then Some(Missing)
    else if !db.rounds[id].status.Planning? then Some(BadTransition)
    else if db.rounds[id].planId in db.pending then Some(DisruptionPending)
    else None
  }

  function ActivatedRounds(db: Db, id: string): Rounds
    requires id in db.rounds
  {
    if IsBlockedByActive(db, id) then db.rounds else db.rounds[id := db.rounds[id].(status := Active, baselined := true)]
  }

  /** Why an activation fails when its first statements are executed already. */
  function LateActivationError(db: Db, id: string): Option<Error>
    requires id in db.rounds
  {
    if IsBlockedByActive(db, id) then Some(Conflict)
    else if db.rounds[id].baselined then Some(BaselineLocked) else None
  }

  /** The most recent finished runs of a scenario in a round: all of those at the latest time. */
  predicate IsLatestFinished(db: Db, round: string, scenario: string, run: string) {
    && run in db.runs && db.runs[run].roundId == Some(round) && db.runs[run].scenarioId == Some(scenario)
    && db.runs[run].finish.Some?
    && (forall j :: j in db.runs && db.runs[j].roundId == Some(round) && db.runs[j].scenarioId == Some(scenario)
                    && db.runs[j].finish.Some? ==>
          db.runs[j].finish.value.at <= db.runs[run].finish.value.at)
  }

  predicate IsInfrastructureRun(r: Run) {
    r.finish.Some? && r.finish.value.class_.Some? && r.finish.value.class_.value.IsInfrastructure()
  }

  predicate IsLive(db: Db, scenario: string) {
    scenario in db.scenarios && !db.scenarios[scenario].retired
  }

  /** A live scenario of the round whose latest run failed for reasons outside the product. */
  predicate BlocksCompletion(db: Db, round: string, run: string) {
    && run in db.runs && db.runs[run].scenarioId.Some? && IsLatestFinished(db, round, db.runs[run].scenarioId.value, run)
    && IsInfrastructureRun(db.runs[run]) && IsLive(db, db.runs[run].scenarioId.value)
  }

  ghost function CompleteRound(db: Db, id: string): Result<Rounds, Error> {
    if id !in db.rounds then Err(Missing)
    else if !db.rounds[id].status.Active? then Err(BadTransition)
    else if exists run :: BlocksCompletion(db, id, run) then Err(InfrastructureUnresolved)
    else Ok(db.rounds[id := db.rounds[id].(status := Completed)])
  }

  ghost function PostVerdict(db: Db, w: World, round: string, scenario: string, verdict: Verdict, evidence: Option<string>)
    : Result<Verdicts, Error>
  {
    if round !in db.rounds then Err(Missing)
    else match VerdictError(db, w, db.rounds[round].planId, scenario, verdict, evidence)
      case Some(e) => Err(e)
      case None =>
        if scenario !in db.scenarios then Err(Invalid)
        else Ok(db.verdicts[(round, scenario) := VerdictRow(verdict, evidence)])
  }

  // ── release ────────────────────────────────────────────────────────────

  predicate IsReleased(k: Key, plan: string, scenario: string, signature: Option<string>) {
    k.plan == plan && k.scenario == scenario && (signature.Some? ==> k.signature == signature.value)
  }

  function ReleasedBudgets(db: Db, plan: string, scenario: string, signature: Option<string>, decision: string): Budgets {
    map k | k in db.budgets ::
      if IsReleased(k, plan, scenario, signature) then db.budgets[k].(count := 0, releasedBy := Some(decision))
      else db.budgets[k]
  }

  /** Counters go back to zero only on the authority of a decision of the same plan that still stands. */
  ghost function ReleaseBudget(db: Db, ref: string, plan: Option<string>, cwdPlan: Option<string>, signature: Option<string>,
                               decision: string): Result<Budgets, Error>
  {
    match ResolveScenario(db, ref, plan, cwdPlan)
    case Err(e) => Err(e)
    case Ok(s) =>
      if s !in db.scenarios then Err(Missing)
      else
        var p := db.scenarios[s].planId;
        if decision !in db.decisions || db.decisions[decision].planId != p || db.decisions[decision].superseded then
          Err(Invalid)
        else if !exists k :: k in db.budgets && IsReleased(k, p, s, signature) then Err(Missing)
        else Ok(ReleasedBudgets(db, p, s, signature, decision))
  }

  // ── all requests ───────────────────────────────────────────────────────

  /** Look-ups whose answer the table order decides are given with the request. */
  datatype Op =
    | Start(request: StartRequest, cwdPlan: Option<string>, id: string, owner: Option<string>, round: Option<string>)
    | Finish(id: string, finish: FinishRequest, report: Option<Report>)
    | NewTask(id: string, roundId: string, parents: seq<string>)
    | NewChore(id: string, roundId: string)
    | MoveTask(id: string, target: TaskStatus)
    | EndTask(id: string, evidence: Evidence)
    | EndChore(id: string, note: Option<string>)
    | NewRound(id: string, plan: string, code: string, number: int, mode: RoundMode, policy: InFlightPolicy)
    | NewChoreRound(id: string, plan: string)
    | Rebase(id: string, decision: string)
    | Activate(id: string, prev: Option<string>)
    | EndRound(id: string)
    | Post(roundId: string, scenario: string, verdict: Verdict, ref: Option<string>)
    | Release(ref_: string, plan_: Option<string>, cwdPlan_: Option<string>, signature: Option<string>, decision: string)
    | NewPlan(id: string, project: string)
    | NewScenario(id: string, scenario_: Scenario)
    | EditScenario(id: string, given: string, when: string, then_: string)
    | MarkScenario(id: string, confirmed: bool, retired: bool)
    | NewDecision(id: string, plan: string, supersedes: Option<string>)
    | SetPolicy(policyOp: Autonomy.Op)
    | SetPending(plan: string, isPending: bool)

  // ── the step function ──────────────────────────────────────────────────

  datatype Response = Response(db: Db, error: Option<Error>)

  function WithRuns(db: Db, r: Result<Runs, Error>): Response {
    match r case Ok(t) => Response(db.(runs := t), None) case Err(e) => Response(db, Some(e))
  }

  function WithLedger(db: Db, r: Result<(Runs, Budgets), Error>): Response {
    match r case Ok((t, b)) => Response(db.(runs := t, budgets := b), None) case Err(e) => Response(db, Some(e))
  }

  function WithBudgets(db: Db, r: Result<Budgets, Error>): Response {
    match r case Ok(b) => Response(db.(budgets := b), None) case Err(e) => Response(db, Some(e))
  }

  function WithTasks(db: Db, r: Result<Tasks, Error>): Response {
    match r case Ok(t) => Response(db.(tasks := t), None) case Err(e) => Response(db, Some(e))
  }

  function WithResults(db: Db, r: Result<(Tasks, Verdicts), Error>): Response {
    match r case Ok((t, v)) => Response(db.(tasks := t, verdicts := v), None) case Err(e) => Response(db, Some(e))
  }

  function WithRounds(db: Db, r: Result<Rounds, Error>): Response {
    match r case Ok(t) => Response(db.(rounds := t), None) case Err(e) => Response(db, Some(e))
  }

  function WithVerdicts(db: Db, r: Result<Verdicts, Error>): Response {
    match r case Ok(v) => Response(db.(verdicts := v), None) case Err(e) => Response(db, Some(e))
  }

  /** `prev` is the latest completed round of the plan. */
  function ActivateRound(db: Db, w: World, id: string, prev: Option<string>): Response {
    match ActivationError(db, id)
    case Some(e) => Response(db, Some(e))
    case None =>
      var r := db.rounds[id];
      Response(db.(tasks := Interrupted(db, r.planId, r.policy), verdicts := ActivatedVerdicts(db, w, id, r, prev),
                   rounds := ActivatedRounds(db, id)), LateActivationError(db, id))
  }

  function AddScenario(db: Db, id: string, s: Scenario): Response {
    if s.planId !in db.plans then Response(db, Some(Invalid))
    else if id in db.scenarios || (s.planId, s.code) in db.codes then Response(db, Some(Conflict))
    else Response(db.(scenarios := db.scenarios[id := s], codes := db.codes[(s.planId, s.code) := id]), None)
  }

  function PutScenario(db: Db, id: string, s: Scenario): Response {
    Response(db.(scenarios := db.scenarios[id := s]), None)
  }

  function AddDecision(db: Db, id: string, plan: string, supersedes: Option<string>): Response {
    if plan !in db.plans then Response(db, Some(Invalid))
    else if id in db.decisions then Response(db, Some(Conflict))
    else
      var added := db.decisions[id := Decision(plan, false)];
      var decisions := if supersedes.Some? && supersedes.value in added
        then added[supersedes.value := added[supersedes.value].(superseded := true)] else added;
      Response(db.(decisions := decisions), None)
  }

  predicate IsRunOp(op: Op) {
    op.Start? || op.Finish? || op.Release?
  }

  predicate IsTaskOp(op: Op) {
    op.NewTask? || op.NewChore? || op.MoveTask? || op.EndTask? || op.EndChore?
  }

  predicate IsRoundOp(op: Op) {
    op.NewRound? || op.NewChoreRound? || op.Rebase? || op.Activate? || op.EndRound? || op.Post?
  }

  ghost function AnswerRun(db: Db, w: World, op: Op): Response {
    match op
    case Start(q, cwdPlan, id, owner, round) => WithRuns(db, StartRun(db, w, q, cwdPlan, id, owner, round))
    case Finish(id, q, report) => WithLedger(db, FinishRun(db, w, id, q, report))
    case Release(ref, plan, cwdPlan, signature, decision) => WithBudgets(db, ReleaseBudget(db, ref, plan, cwdPlan, signature, decision))
    case _ => Response(db, None)
  }

  ghost function AnswerTask(db: Db, w: World, op: Op): Response {
    match op
    case NewTask(id, round, parents) => WithTasks(db, CreateTask(db, id, round, parents))
    case NewChore(id, round) => WithTasks(db, CreateChore(db, id, round))
    case MoveTask(id, target) => WithTasks(db, SetTaskStatus(db, id, target))
    case EndTask(id, e) => WithResults(db, CompleteTask(db, w, id, e))
    case EndChore(id, note) => WithTasks(db, FinishChore(db, id, note))
    case _ => Response(db, None)
  }

  ghost function AnswerRound(db: Db, w: World, op: Op): Response {
    match op
    case NewRound(id, plan, code, number, mode, policy) => WithRounds(db, CreateRound(db, id, plan, code, number, mode, policy))
    case NewChoreRound(id, plan) => WithRounds(db, CreateChoreRound(db, id, plan))
    case Rebase(id, decision) => WithRounds(db, RebaseRound(db, id, decision))
    case Activate(id, prev) => ActivateRound(db, w, id, prev)
    case EndRound(id) => WithRounds(db, CompleteRound(db, id))
    case Post(round, scenario, verdict, ref) => WithVerdicts(db, PostVerdict(db, w, round, scenario, verdict, ref))
    case _ => Response(db, None)
  }

  /** Requests on the entities the gates read: plans, scenarios, decisions, policies, disruption reviews. */
  function AnswerAdmin(db: Db, op: Op): Response {
    match op
    case NewPlan(id, project) =>
      if id in db.plans then Response(db, Some(Conflict)) else Response(db.(plans := db.plans[id := project]), None)
    case NewScenario(id, s) => AddScenario(db, id, s)
    case EditScenario(id, given, when, then_) =>
      if id !in db.scenarios then Response(db, Some(Missing))
      else PutScenario(db, id, db.scenarios[id].(given := given, when := when, then_ := then_))
    case MarkScenario(id, confirmed, retired) =>
      if id !in db.scenarios then Response(db, Some(Missing))
      else PutScenario(db, id, db.scenarios[id].(confirmed := confirmed, retired := retired))
    case NewDecision(id, plan, supersedes) => AddDecision(db, id, plan, supersedes)
    case SetPolicy(pop) => Response(db.(policies := Autonomy.Apply(db.policies, pop)), None)
    case SetPending(plan, isPending) =>
      Response(db.(pending := if isPending then db.pending + {plan} else db.pending - {plan}), None)
    case _ => Response(db, None)
  }

  /** The answer to a request. */
  ghost function Answer(db: Db, w: World, op: Op): Response {
    if IsRunOp(op) then AnswerRun(db, w, op)
    else if IsTaskOp(op) then AnswerTask(db, w, op)
    else if IsRoundOp(op) then AnswerRound(db, w, op)
    else AnswerAdmin(db, op)
  }

  /** The look-ups given with the request are what the tables hold; ids made by the daemon are never empty. */
  ghost predicate LookupsOk(db: Db, op: Op) {
    match op
    case Start(q, cwdPlan, id, owner, round) =>
      (match StartScope(db, q, cwdPlan)
       case Err(_) => true
       case Ok((given, scenario)) =>
         scenario.Some? && scenario.value in db.scenarios && given.None? ==>
           && IsLinked(db, db.scenarios[scenario.value].planId, scenario.value, owner)
           && IsActiveRound(db, db.scenarios[scenario.value].planId, round))
    case NewRound(id, plan, code, number, mode, policy) => IsNextNumber(db, plan, number)
    case Activate(id, prev) => id in db.rounds ==> IsLatestCompleted(db, db.rounds[id].planId, prev)
    case NewPlan(id, _) => id != ""
    case SetPolicy(pop) => pop.Set? ==> pop.parents.plans == db.plans.Keys
    case _ => true
  }

  ghost function Apply(db: Db, w: World, op: Op): Db {
    if LookupsOk(db, op) then Answer(db, w, op).db else db
  }

  /** The requests of a run, each with the outside it sees. */
  datatype Event = Event(world: World, op: Op)

  const EMPTY := Db(map[], [], map[], map[], map[], map[], map[], map[], map[], map[], {})

  ghost function After(db: Db, events: seq<Event>): Db {
    if events == [] then db
    else Apply(After(db, events[..|events| - 1]), events[|events| - 1].world, events[|events| - 1].op)
  }
}
