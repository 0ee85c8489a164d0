/** Starting and finishing a run: linking, the cause identity, the compatibility bridge, the single debit. */
module RunLifecycle {
  import opened Wrappers
  import opened Text
  import opened Classify
  import opened Cause
  import opened Tables
  import SortedMap

  type Runs = map<string, Run>

  type Budgets = map<Key, Budget>

  // ── start ──────────────────────────────────────────────────────────────

  datatype StartRequest = StartRequest(task: Option<string>, scenario: Option<string>, plan: Option<string>,
                                       command: Option<seq<string>>, cwd: Option<string>, globs: seq<string>,
                                       tools: SortedMap.Entries)

  /** In-progress tasks of the plan that own the scenario. */
  function Owners(db: Db, plan: string, scenario: string): set<string> {
    set t | t in db.tasks && db.tasks[t].status.InProgress? && scenario in db.tasks[t].parents
            && db.tasks[t].roundId in db.rounds && db.rounds[db.tasks[t].roundId].planId == plan
  }

  function ActiveRounds(db: Db, plan: string): set<string> {
    set r | r in db.rounds && db.rounds[r].planId == plan && db.rounds[r].status.Active?
  }

  /** The task a scenario run without explicit task is linked to: the single owner. */
  predicate IsLinked(db: Db, plan: string, scenario: string, owner: Option<string>) {
    match owner
    case Some(t) => Owners(db, plan, scenario) == {t}
    case None => |Owners(db, plan, scenario)| != 1
  }

  /** An active round of the plan, if there is one. */
  predicate IsActiveRound(db: Db, plan: string, round: Option<string>) {
    match round
    case Some(r) => r in ActiveRounds(db, plan)
    case None => ActiveRounds(db, plan) == {}
  }

  /** Task and scenario of a start request. */
  function StartScope(db: Db, q: StartRequest, cwdPlan: Option<string>): Result<(Option<string>, Option<string>), Error> {
    if q.task.Some? && q.task.value !in db.tasks then Err(Missing)
    else
      var plan := if q.plan.Some? then q.plan else if q.task.Some? then Some(db.tasks[q.task.value].planId) else None;
      match q.scenario
      case None => if q.task.None? then Err(Invalid) else Ok((q.task, None))
      case Some(ref) =>
        match ResolveScenario(db, ref, plan, cwdPlan)
        case Err(e) => Err(e)
        case Ok(s) => if q.task.Some? && s !in db.tasks[q.task.value].parents then Err(Invalid) else Ok((q.task, Some(s)))
  }

  /** A command that is given and not empty. */
  function CommandOf(q: StartRequest): Option<seq<string>> {
    if q.command == Some([]) then None else q.command
  }

  function StartFingerprint(db: Db, w: World, q: StartRequest, scenario: Option<string>): Result<Option<string>, Error> {
    match CommandOf(q)
    case None => Ok(None)
    case Some(cmd) =>
      if scenario.None? || q.cwd.None? || !("/" <= q.cwd.value) then Err(Invalid)
      else match ContractOf(db, w, scenario)
        case None => Err(Missing)
        case Some(contract) =>
          match w.fingerprint(q.cwd.value, q.globs, cmd, q.tools, contract)
          case None => Err(Invalid)
          case Some(fp) => Ok(Some(fp))
  }

  /** The new row; `owner` and `round` are what the two look-ups return when no task is given. */
  function StartRow(db: Db, w: World, q: StartRequest, cwdPlan: Option<string>, owner: Option<string>, round: Option<string>)
    : Result<Run, Error>
  {
    match StartScope(db, q, cwdPlan)
    case Err(e) => Err(e)
    case Ok((given, scenario)) =>
      var task := if given.Some? || scenario.None? then given else owner;
      if scenario.Some? && scenario.value !in db.scenarios then Err(Missing)
      else if task.Some? && task.value !in db.tasks then Err(Missing)
      else match StartFingerprint(db, w, q, scenario)
        case Err(e) => Err(e)
        case Ok(fp) =>
          var plan := if scenario.Some? then Some(db.scenarios[scenario.value].planId)
            else if task.Some? then Some(db.tasks[task.value].planId) else None;
          var inRound := if task.Some? then Some(db.tasks[task.value].roundId) else round;
          Ok(Run(task, plan, inRound, scenario, CommandOf(q), q.cwd, q.globs, q.tools, fp, None))
  }

  function StartRun(db: Db, w: World, q: StartRequest, cwdPlan: Option<string>, id: string, owner: Option<string>,
                    round: Option<string>): Result<Runs, Error>
  {
    match StartRow(db, w, q, cwdPlan, owner, round)
    case Err(e) => Err(e)
    case Ok(r) => if id in db.runs then Err(Conflict) else Ok(db.runs[id := r])
  }

  // ── finish ─────────────────────────────────────────────────────────────

  datatype FinishRequest = FinishRequest(result: Option<RunResult>, exitCode: Option<int>, signal: Option<int>,
                                         timedOut: Option<bool>, spawnError: Option<SpawnError>,
                                         class_: Option<FailureClass>, signature: Option<string>)

  /** The tail of the captured output, and whether it is all of it. */
  datatype Report = Report(text: string, truncated: bool)

  predicate IsStructured(q: FinishRequest) {
    q.exitCode.Some? || q.signal.Some? || q.timedOut.Some? || q.spawnError.Some? || q.class_.Some? || q.signature.Some?
  }

  predicate IsExecution(r: Run, q: FinishRequest) {
    r.command.Some? || q.exitCode.Some? || q.signal.Some? || q.timedOut.Some? || q.spawnError.Some?
  }

  function OutcomeOf(q: FinishRequest): ExecOutcome {
    ExecOutcome(q.exitCode, q.signal, q.timedOut.GetOr(false), q.spawnError)
  }

  /** A report exists only for a run with a command. */
  function ReportOf(r: Run, report: Option<Report>): Report {
    if r.command.Some? && report.Some? then report.value else Report("", false)
  }

  function ContractId(r: Run): string {
    match r.scenarioId
    case Some(s) => s
    case None => match r.command case Some(c) => Join(c, " ") case None => r.taskId.GetOr("")
  }

  function CallerSignature(raw: string): Option<string> {
    var t := Trim(raw);
    if t == "" then None else if "caller:" <= t || "sig:" <= t then Some(t) else Some("caller:" + t)
  }

  function V1Material(contract: string, class_: FailureClass, test: string, error: string, frame: string): string {
    "sdi-failure-signature-v1\ncontract:" + contract + "\nclass:" + class_.Name() + "\ntest:" + test + "\nerror:" + error
    + "\nframe:" + frame + "\n"
  }

  /** Result, class and hint of a structured finish, after the consistency checks. */
  datatype Judged = Judged(result: RunResult, class_: FailureClass, hint: Option<string>)

  function Judge(q: FinishRequest, outcome: ExecOutcome, classified: FailureClass): Result<Judged, Error> {
    var result := match q.result case Some(r) => r case None => if outcome.Passed() then Success else Failure;
    if result.Success? && !outcome.Passed() then Err(Invalid)
    else
      var class_ := match q.class_ case Some(c) => c case None => if result.Success? then NoFailure else classified;
      if (result.Success? && class_.IsFailure()) || (result.Failure? && class_.NoFailure?) then Err(Invalid)
      else match q.signature
        case Some(raw) =>
          (match CallerSignature(raw)
           case None => Err(Invalid)
           case Some(hint) => Ok(Judged(result, if result.Aborted? then NoFailure else class_, Some(hint))))
        case None => Ok(Judged(result, if result.Aborted? then NoFailure else class_, None))
  }

  function ComputedIdentity(w: World, r: Run, q: FinishRequest, report: Option<Report>, class_: FailureClass)
    : Option<CauseIdentity>
  {
    var text := ReportOf(r, report);
    if class_.IsFailure() && IsExecution(r, q) then
      Some(FailureCause(w.sha, ContractId(r), class_, Classify.Classify(OutcomeOf(q), text.text, w.inRepo).errorClass,
                        if text.truncated then "" else text.text, w.inRepo))
    else None
  }

  /** Signature of a failure without computed identity: the caller's hint, never as a diagnosed one, or the v1 digest. */
  function ManualSignature(w: World, r: Run, q: FinishRequest, report: Option<Report>, j: Judged): string {
    match j.hint
    case Some(raw) => if V2 <= raw then "caller:" + raw else raw
    case None =>
      var c := Classify.Classify(OutcomeOf(q), ReportOf(r, report).text, w.inRepo);
      "sig:" + w.sha(V1Material(ContractId(r), j.class_, c.failingTest.GetOr(""), c.errorClass, c.topFrame.GetOr("")))
  }

  // ── the compatibility bridge ───────────────────────────────────────────

  /** The bucket was opened by a run whose diagnosis is this very signature. */
  predicate IsDiagnosed(db: Db, k: Key) {
    && k in db.budgets && V2 <= k.signature && !(V2_FALLBACK <= k.signature)
    && db.budgets[k].firstRun in db.runs
    && var r := db.runs[db.budgets[k].firstRun];
       && r.planId == Some(k.plan) && r.scenarioId == Some(k.scenario) && r.finish.Some?
       && r.finish.value.class_ == Some(k.class_) && r.finish.value.signature == Some(k.signature)
       && r.finish.value.identity.Some? && r.finish.value.identity.value.version == 2
       && r.finish.value.identity.value.basis == PRIMARY && r.finish.value.identity.value.signature == k.signature
  }

  /** A counter that keeps its authority over new failures of its class: outstanding, and not of a diagnosed cause (or no
      diagnosis is available now). */
  predicate IsCandidate(db: Db, plan: string, scenario: string, class_: FailureClass, unavailable: bool, k: Key) {
    && k in db.budgets && k.plan == plan && k.scenario == scenario && k.class_ == class_
    && db.budgets[k].count > 0 && (unavailable || !IsDiagnosed(db, k))
  }

  /** Exhausted before not, then the larger counter, then the smaller signature. */
  predicate Precedes(db: Db, a: Key, b: Key)
    requires a in db.budgets && b in db.budgets
  {
    if AtCap(db, a) != AtCap(db, b) then AtCap(db, a)
    else if db.budgets[a].count != db.budgets[b].count then db.budgets[a].count > db.budgets[b].count
    else StrLe(a.signature, b.signature)
  }

  ghost predicate IsBridge(db: Db, plan: string, scenario: string, class_: FailureClass, unavailable: bool, k: Key) {
    && IsCandidate(db, plan, scenario, class_, unavailable, k)
    && forall j :: IsCandidate(db, plan, scenario, class_, unavailable, j) ==> Precedes(db, k, j)
  }

  ghost function Bridge(db: Db, plan: string, scenario: string, class_: FailureClass, unavailable: bool): (b: Option<Key>)
    ensures b.Some? ==> IsBridge(db, plan, scenario, class_, unavailable, b.value)
    ensures b.None? ==> forall k :: !IsCandidate(db, plan, scenario, class_, unavailable, k)
  {
    if exists k :: IsCandidate(db, plan, scenario, class_, unavailable, k) then
      BridgeFound(db, plan, scenario, class_, unavailable);
      var k :| IsBridge(db, plan, scenario, class_, unavailable, k);
      Some(k)
    else None
  }

  function Candidates(db: Db, plan: string, scenario: string, class_: FailureClass, unavailable: bool): set<Key> {
    set k | k in db.budgets && IsCandidate(db, plan, scenario, class_, unavailable, k)
  }

  lemma PrecedesIsTotal(db: Db, a: Key, b: Key)
    requires a in db.budgets && b in db.budgets
    ensures Precedes(db, a, b) || Precedes(db, b, a)
  {
    StrLeTotal(a.signature, b.signature);
  }

  lemma PrecedesIsTransitive(db: Db, a: Key, b: Key, c: Key)
    requires a in db.budgets && b in db.budgets && c in db.budgets
    requires Precedes(db, a, b) && Precedes(db, b, c)
    ensures Precedes(db, a, c)
  {
    if StrLe(a.signature, b.signature) && StrLe(b.signature, c.signature) {
      StrLeTransitive(a.signature, b.signature, c.signature);
    }
  }

  lemma {:induction false} FirstOfSet(db: Db, ks: set<Key>) returns (k: Key)
    requires ks != {} && forall x :: x in ks ==> x in db.budgets
    ensures k in ks && forall j :: j in ks ==> Precedes(db, k, j)
    decreases |ks|
  {
    hide Precedes;
    var x :| x in ks;
    var rest := ks - {x};
    PrecedesIsTotal(db, x, x);
    if rest == {} {
      k := x;
      forall j | j in ks ensures Precedes(db, k, j) { assert j !in rest; }
    } else {
      var y := FirstOfSet(db, rest);
      PrecedesIsTotal(db, x, y);
      if Precedes(db, x, y) {
        k := x;
        forall j | j in ks ensures Precedes(db, k, j) { if j != x { PrecedesIsTransitive(db, x, y, j); } }
      } else {
        k := y;
      }
    }
  }

  lemma BridgeFound(db: Db, plan: string, scenario: string, class_: FailureClass, unavailable: bool)
    requires exists k :: IsCandidate(db, plan, scenario, class_, unavailable, k)
    ensures exists k :: IsBridge(db, plan, scenario, class_, unavailable, k)
  {
    var ks := Candidates(db, plan, scenario, class_, unavailable);
    var c :| IsCandidate(db, plan, scenario, class_, unavailable, c);
    assert c in ks;
    var k := FirstOfSet(db, ks);
    forall j | IsCandidate(db, plan, scenario, class_, unavailable, j) ensures Precedes(db, k, j) { assert j in ks; }
    assert IsBridge(db, plan, scenario, class_, unavailable, k);
  }

  /** The order decides: there is one bridge at most. */
  lemma BridgeIsUnique(db: Db, plan: string, scenario: string, class_: FailureClass, unavailable: bool, a: Key, b: Key)
    requires IsBridge(db, plan, scenario, class_, unavailable, a) && IsBridge(db, plan, scenario, class_, unavailable, b)
    ensures a == b
  {
    StrLeAntisymmetric(a.signature, b.signature);
  }

  // ── finishing ──────────────────────────────────────────────────────────

  function Debited(budgets: Budgets, k: Key, run: string): Budgets {
    if k in budgets then
      var b := budgets[k];
      budgets[k := b.(count := b.count + 1, total := b.total + 1, lastRun := run)]
    else budgets[k := Budget(1, 1, run, run, None)]
  }

  predicate IsFallback(i: CauseIdentity) {
    V2_FALLBACK <= i.signature
  }

  /** The bucket that overrides a computed identity, for a run of a scenario. */
  ghost function BridgeFor(db: Db, r: Run, class_: FailureClass, computed: Option<CauseIdentity>): Option<Key> {
    if computed.Some? && r.planId.Some? && r.scenarioId.Some? then
      Bridge(db, r.planId.value, r.scenarioId.value, class_, IsFallback(computed.value))
    else None
  }

  function SignatureFor(w: World, r: Run, q: FinishRequest, report: Option<Report>, j: Judged,
                        computed: Option<CauseIdentity>, bridge: Option<Key>): Option<string>
  {
    if computed.Some? then Some(if bridge.Some? then bridge.value.signature else computed.value.signature)
    else if j.class_.IsFailure() then Some(ManualSignature(w, r, q, report, j))
    else None
  }

  /** The bucket a finish is charged to: a classified failure of a scenario run. */
  function DebitKey(r: Run, f: Finish): Option<Key> {
    if f.class_.Some? && f.class_.value.IsFailure() && f.signature.Some? && r.planId.Some? && r.scenarioId.Some? then
      Some(Key(r.planId.value, r.scenarioId.value, f.class_.value, f.signature.value))
    else None
  }

  function Charged(budgets: Budgets, k: Option<Key>, run: string): Budgets {
    if k.Some? then Debited(budgets, k.value, run) else budgets
  }

  /** Terminal state and debit, together or not at all. */
  function Terminated(db: Db, id: string, r: Run, f: Finish): Result<(Runs, Budgets), Error> {
    var k := DebitKey(r, f);
    if k.Some? && k.value.plan !in db.plans then Err(Missing)
    else Ok((db.runs[id := r.(finish := Some(f))], Charged(db.budgets, k, id)))
  }

  function LegacyFinish(w: World, result: RunResult): Finish {
    Finish(w.now, result, ExecOutcome(None, None, false, None), None, None, None)
  }

  /** The terminal state a request gives a running run. */
  ghost function FinishOf(db: Db, w: World, r: Run, q: FinishRequest, report: Option<Report>): Result<Finish, Error> {
    if !IsStructured(q) && r.command.None? then
      (match q.result case None => Err(Invalid) case Some(result) => Ok(LegacyFinish(w, result)))
    else
      match Judge(q, OutcomeOf(q), Classify.Classify(OutcomeOf(q), ReportOf(r, report).text, w.inRepo).failureClass)
      case Err(e) => Err(e)
      case Ok(j) =>
        var computed := ComputedIdentity(w, r, q, report, j.class_);
        var signature := SignatureFor(w, r, q, report, j, computed, BridgeFor(db, r, j.class_, computed));
        Ok(Finish(w.now, j.result, OutcomeOf(q), Some(j.class_), signature, computed))
  }

  ghost function FinishRun(db: Db, w: World, id: string, q: FinishRequest, report: Option<Report>)
    : Result<(Runs, Budgets), Error>
  {
    if id !in db.runs then Err(Missing)
    else if db.runs[id].finish.Some? then Err(Invalid)
    else match FinishOf(db, w, db.runs[id], q, report)
      case Err(e) => Err(e)
      case Ok(f) => Terminated(db, id, db.runs[id], f)
  }
}
