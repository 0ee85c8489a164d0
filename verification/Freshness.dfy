/** What a started run is bound to, and what it means that it is still fresh: from the request down to the bytes of the
    working tree. */
module Freshness {
  import opened Wrappers
  import opened Text
  import opened Digest
  import opened Tables
  import opened RunLifecycle
  import opened Steps
  import opened Ledger
  import opened Integrity
  import opened PassEvidence
  import Fingerprint
  import SortedMap
  import Workspace

  // ── linking ────────────────────────────────────────────────────────────

  /** The reference is the scenario's id, or a short code the scenario is listed under. */
  predicate Names(db: Db, ref: string, scenario: string) {
    scenario == Trim(ref) || exists c :: c in db.codes && c.1 == Trim(ref) && db.codes[c] == scenario
  }

  lemma ResolvedIsNamed(db: Db, ref: string, plan: Option<string>, cwdPlan: Option<string>)
    ensures var s := ResolveScenario(db, ref, plan, cwdPlan); s.Ok? ==> Names(db, ref, s.value)
  {
    hide Trim;
  }

  /** Scenario, plan and task of a new run: an explicit task must own the scenario, otherwise the one task in progress that
      owns it is linked, if there is exactly one. */
  predicate IsBound(db: Db, q: StartRequest, r: Run) {
    && (q.scenario.Some? <==> r.scenarioId.Some?)
    && (r.scenarioId.Some? ==>
          && Names(db, q.scenario.value, r.scenarioId.value) && r.scenarioId.value in db.scenarios
          && r.planId == Some(db.scenarios[r.scenarioId.value].planId))
    && (q.task.Some? ==>
          r.taskId == q.task && q.task.value in db.tasks
          && (r.scenarioId.Some? ==> r.scenarioId.value in db.tasks[q.task.value].parents))
    && (q.task.None? ==> r.scenarioId.Some? && IsLinked(db, r.planId.value, r.scenarioId.value, r.taskId))
  }

  /** The round of a new run: its task's, otherwise an active round of the plan. */
  predicate IsPlaced(db: Db, r: Run) {
    match r.taskId
    case Some(t) => t in db.tasks && r.roundId == Some(db.tasks[t].roundId)
    case None => r.planId.Some? && IsActiveRound(db, r.planId.value, r.roundId)
  }

  lemma RowIsBound(db: Db, w: World, q: StartRequest, cwdPlan: Option<string>, id: string, owner: Option<string>,
                   round: Option<string>)
    requires LookupsOk(db, Start(q, cwdPlan, id, owner, round)) && StartRow(db, w, q, cwdPlan, owner, round).Ok?
    ensures var r := StartRow(db, w, q, cwdPlan, owner, round).value; IsBound(db, q, r) && IsPlaced(db, r)
  {
    hide StartFingerprint, IsLinked, IsActiveRound, Names, ResolveScenario;
    if q.scenario.Some? {
      var plan := if q.plan.Some? then q.plan
        else if q.task.Some? && q.task.value in db.tasks then Some(db.tasks[q.task.value].planId) else None;
      ResolvedIsNamed(db, q.scenario.value, plan, cwdPlan);
    }
  }

  /** A run with a command carries the fingerprint of its inputs at its start. */
  lemma RowIsFresh(db: Db, w: World, q: StartRequest, cwdPlan: Option<string>, owner: Option<string>, round: Option<string>)
    requires StartRow(db, w, q, cwdPlan, owner, round).Ok?
    ensures var r := StartRow(db, w, q, cwdPlan, owner, round).value;
            && r.finish.None? && (r.command.Some? <==> r.fingerprint.Some?)
            && (r.command.Some? ==> r.scenarioId.Some? && IsFresh(db, w, r))
  {
    hide StartScope, ContractOf;
  }

  lemma FreshnessReadsScenarios(a: Db, b: Db, w: World, r: Run)
    requires b.scenarios == a.scenarios
    ensures IsFresh(b, w, r) == IsFresh(a, w, r)
  {
    hide Fingerprint.ContractHash;
  }

  /** An accepted start adds one unfinished run, bound as requested and fresh. */
  lemma StartedRunIsBound(db: Db, w: World, op: Op)
    requires op.Start? && LookupsOk(db, op) && Answer(db, w, op).error.None?
    ensures var n := Answer(db, w, op).db;
            && op.id !in db.runs && op.id in n.runs && n == db.(runs := db.runs[op.id := n.runs[op.id]])
            && IsBound(db, op.request, n.runs[op.id]) && IsPlaced(db, n.runs[op.id])
            && n.runs[op.id].finish.None?
            && (n.runs[op.id].command.Some? ==> IsFresh(n, w, n.runs[op.id]))
  {
    RunAnswers(db, w, op);
    var row := StartRow(db, w, op.request, op.cwdPlan, op.owner, op.round);
    hide Answer, StartRow, IsBound, IsPlaced, IsFresh;
    RowIsBound(db, w, op.request, op.cwdPlan, op.id, op.owner, op.round);
    RowIsFresh(db, w, op.request, op.cwdPlan, op.owner, op.round);
    var n := Answer(db, w, op).db;
    assert n == db.(runs := db.runs[op.id := row.value]);
    FreshnessReadsScenarios(db, n, w, row.value);
  }

  // ── what freshness means ───────────────────────────────────────────────

  /** The world fingerprints the directory by the pipeline over this working tree. */
  ghost predicate Sees(w: World, cwd: string, globs: seq<string>, repo: Workspace.Repo, hash: string -> string) {
    forall command, tools, contract ::
      w.fingerprint(cwd, globs, command, tools, contract)
      == match Workspace.InputsOf(repo, hash, globs, command, tools, contract)
         case None => None
         case Some(m) => Some(Fingerprint.Fingerprint(w.sha, m))
  }

  /** Git keeps its contract on a working tree whose names are single lines and which has no submodules. */
  ghost predicate IsReadable(repo: Workspace.Repo, matches: string -> bool, ignored: string -> bool, hash: string -> string) {
    Workspace.GitContract(repo, matches, ignored, hash) && Workspace.LineNames(repo) && Workspace.NoSubmodules(repo)
  }

  function ContractTextOf(s: Scenario): string {
    Fingerprint.ContractText(s.given, s.when, s.then_)
  }

  /** The inputs of a run of the scenario over a working tree. */
  function Consumed(sha: string -> string, s: Scenario, r: Run, repo: Workspace.Repo, hash: string -> string)
    : Option<Fingerprint.Inputs>
  {
    Workspace.InputsOf(repo, hash, r.globs, r.command.GetOr([]), r.tools, sha(ContractTextOf(s)))
  }

  predicate SameWording(a: Scenario, b: Scenario) {
    a.given == b.given && a.when == b.when && a.then_ == b.then_
  }

  /** No two of the texts hashed for the comparison collide, and the wordings and declarations are separable. */
  ghost predicate IsSeparable(sha: string -> string, a: Scenario, b: Scenario, r: Run, before: Workspace.Repo,
                              now: Workspace.Repo, hash: string -> string)
  {
    && (forall s :: IsDigest(sha(s))) && (forall c :: '\n' !in hash(c))
    && '\0' !in a.given && '\0' !in a.when && '\0' !in b.given && '\0' !in b.when
    && Workspace.CleanDeclarations(r.globs, r.tools, "")
    && NoCollision(sha, ContractTextOf(a), ContractTextOf(b))
    && Workspace.NoContentCollision(before, now, hash)
    && (forall x, y :: Consumed(sha, a, r, before, hash) == Some(x) && Consumed(sha, b, r, now, hash) == Some(y) ==>
          NoCollision(sha, Fingerprint.Material(x), Fingerprint.Material(y)))
  }

  lemma CleanWithContract(r: Run, d: string)
    requires Workspace.CleanDeclarations(r.globs, r.tools, "") && IsDigest(d)
    ensures Workspace.CleanDeclarations(r.globs, r.tools, d)
  {
  }

  /** The fingerprints of the two inputs agree exactly when wording, contents and pending deletions do. */
  lemma ConsumedAgree(sha: string -> string, a: Scenario, b: Scenario, r: Run, before: Workspace.Repo, now: Workspace.Repo,
                      matches: string -> bool, ignored: string -> bool, hash: string -> string)
    requires IsReadable(before, matches, ignored, hash) && IsReadable(now, matches, ignored, hash)
    requires IsSeparable(sha, a, b, r, before, now, hash)
    ensures var x, y := Consumed(sha, a, r, before, hash), Consumed(sha, b, r, now, hash);
            && x.Some? && y.Some?
            && (Fingerprint.Fingerprint(sha, x.value) == Fingerprint.Fingerprint(sha, y.value)
                <==> && SameWording(a, b) && Workspace.SameContents(before, now, matches, ignored)
                     && Workspace.SameDeletions(before, now))
  {
    var c, d := sha(ContractTextOf(a)), sha(ContractTextOf(b));
    CleanWithContract(r, c);
    CleanWithContract(r, d);
    Fingerprint.ContractTellsWordingsApart(a.given, a.when, a.then_, b.given, b.when, b.then_);
    hide Fingerprint.ContractText, Fingerprint.Material, Fingerprint.Fingerprint, Workspace.InputsOf, Workspace.GitContract, Workspace.LineNames,
      Workspace.NoSubmodules, Workspace.NoContentCollision, Workspace.CleanDeclarations, Workspace.SameContents,
      Workspace.SameDeletions;
    Workspace.FingerprintFollowsContent(before, now, matches, ignored, hash, sha, r.globs, r.globs,
      r.command.GetOr([]), r.command.GetOr([]), r.tools, r.tools, c, d);
  }

  lemma FreshByPipeline(db: Db, w: World, r: Run, repo: Workspace.Repo, hash: string -> string)
    requires r.scenarioId.Some? && r.scenarioId.value in db.scenarios && r.cwd.Some? && r.fingerprint.Some?
    requires Sees(w, r.cwd.value, r.globs, repo, hash)
    ensures IsFresh(db, w, r)
            <==> match Consumed(w.sha, db.scenarios[r.scenarioId.value], r, repo, hash)
                 case None => false
                 case Some(m) => r.fingerprint == Some(Fingerprint.Fingerprint(w.sha, m))
  {
    hide Workspace.InputsOf, Fingerprint.Fingerprint, Fingerprint.ContractText;
    var s := db.scenarios[r.scenarioId.value];
    assert w.fingerprint(r.cwd.value, r.globs, r.command.GetOr([]), r.tools, w.sha(ContractTextOf(s)))
           == match Consumed(w.sha, s, r, repo, hash) case None => None case Some(m) => Some(Fingerprint.Fingerprint(w.sha, m));
  }

  lemma FreshIffSame(a: Db, b: Db, v: World, w: World, r: Run, before: Workspace.Repo, now: Workspace.Repo,
                     matches: string -> bool, ignored: string -> bool, hash: string -> string)
    requires v.sha == w.sha && IsFresh(a, v, r) && r.cwd.Some? && r.scenarioId.Some?
    requires r.scenarioId.value in a.scenarios && r.scenarioId.value in b.scenarios
    requires Sees(v, r.cwd.value, r.globs, before, hash) && Sees(w, r.cwd.value, r.globs, now, hash)
    requires IsReadable(before, matches, ignored, hash) && IsReadable(now, matches, ignored, hash)
    requires IsSeparable(w.sha, a.scenarios[r.scenarioId.value], b.scenarios[r.scenarioId.value], r, before, now, hash)
    ensures IsFresh(b, w, r)
            <==> && SameWording(a.scenarios[r.scenarioId.value], b.scenarios[r.scenarioId.value])
                 && Workspace.SameContents(before, now, matches, ignored) && Workspace.SameDeletions(before, now)
  {
    assert r.fingerprint.Some?;
    FreshByPipeline(a, v, r, before, hash);
    FreshByPipeline(b, w, r, now, hash);
    hide IsFresh, Sees, IsReadable, IsSeparable, Consumed, Fingerprint.Fingerprint, SameWording, Workspace.SameContents, Workspace.SameDeletions;
    ConsumedAgree(w.sha, a.scenarios[r.scenarioId.value], b.scenarios[r.scenarioId.value], r, before, now, matches, ignored, hash);
  }

  lemma FreshnessReadsStart(db: Db, w: World, a: Run, b: Run)
    requires SameStart(a, b)
    ensures IsFresh(db, w, b) == IsFresh(db, w, a)
  {
    hide Fingerprint.ContractHash;
  }

  /** A run with a command was started under one world and looked at again, after other requests, under another; both
      worlds fingerprint by the pipeline, over the working trees of those moments. */
  ghost predicate IsObserved(db: Db, v: World, op: Op, later: seq<Event>, w: World, before: Workspace.Repo, now: Workspace.Repo,
                             matches: string -> bool, ignored: string -> bool, hash: string -> string)
  {
    && op.Start? && LookupsOk(db, op) && Answer(db, v, op).error.None? && v.sha == w.sha
    && op.id in Answer(db, v, op).db.runs && op.id in After(Answer(db, v, op).db, later).runs
    && var r := Answer(db, v, op).db.runs[op.id];
       var end := After(Answer(db, v, op).db, later);
       && r.command.Some? && r.cwd.Some? && r.scenarioId.Some?
       && r.scenarioId.value in db.scenarios && r.scenarioId.value in end.scenarios
       && Sees(v, r.cwd.value, r.globs, before, hash) && Sees(w, r.cwd.value, r.globs, now, hash)
       && IsReadable(before, matches, ignored, hash) && IsReadable(now, matches, ignored, hash)
       && IsSeparable(w.sha, db.scenarios[r.scenarioId.value], end.scenarios[r.scenarioId.value], r, before, now, hash)
  }

  /** Wording, contents and pending deletions are what they were when the run started. */
  ghost predicate IsUnchanged(db: Db, end: Db, scenario: string, before: Workspace.Repo, now: Workspace.Repo,
                              matches: string -> bool, ignored: string -> bool)
    requires scenario in db.scenarios && scenario in end.scenarios
  {
    && SameWording(db.scenarios[scenario], end.scenarios[scenario])
    && Workspace.SameContents(before, now, matches, ignored) && Workspace.SameDeletions(before, now)
  }

  /** Whatever requests follow the start of a run with a command: its evidence is fresh exactly while the wording of its
      scenario, the content of every input and the pending deletions are those of the start. */
  lemma FreshUntilInputsChange(db: Db, v: World, op: Op, later: seq<Event>, w: World, before: Workspace.Repo, now: Workspace.Repo,
                               matches: string -> bool, ignored: string -> bool, hash: string -> string)
    requires IsObserved(db, v, op, later, w, before, now, matches, ignored, hash)
    ensures var r := Answer(db, v, op).db.runs[op.id];
            var end := After(Answer(db, v, op).db, later);
            IsFresh(end, w, end.runs[op.id]) <==> IsUnchanged(db, end, r.scenarioId.value, before, now, matches, ignored)
  {
    var n := Answer(db, v, op).db;
    var end := After(n, later);
    var r := n.runs[op.id];
    hide Answer, LookupsOk, IsFresh, Sees, IsReadable, IsSeparable, IsBound, IsPlaced, Apply, SameWording, Workspace.SameContents,
      Workspace.SameDeletions;
    StartedRunIsBound(db, v, op);
    HistoryGrows(n, later);
    assert SameStart(r, end.runs[op.id]);
    FreshnessReadsStart(end, w, r, end.runs[op.id]);
    SameScenarioRows(db, n, op.id);
    FreshIffSame(n, end, v, w, r, before, now, matches, ignored, hash);
  }

  /** So a pass that the gates accept on the authority of that run: the run succeeded cleanly for this scenario and plan, and
      nothing it verified has changed since it started. */
  lemma AcceptedPassSawTheseInputs(db: Db, v: World, op: Op, later: seq<Event>, w: World, before: Workspace.Repo,
                                   now: Workspace.Repo, matches: string -> bool, ignored: string -> bool, hash: string -> string,
                                   plan: string, scenario: string, raw: string)
    requires IsObserved(db, v, op, later, w, before, now, matches, ignored, hash)
    requires ParseRef(raw) == RunRef(op.id)
    requires var end := After(Answer(db, v, op).db, later);
             Inv(end) && VerdictError(end, w, plan, scenario, Passing, Some(raw)).None?
    ensures var end := After(Answer(db, v, op).db, later);
            && Proves(end, op.id, plan, scenario)
            && scenario in db.scenarios && scenario in end.scenarios
            && IsUnchanged(db, end, scenario, before, now, matches, ignored)
  {
    var n := Answer(db, v, op).db;
    var end := After(n, later);
    FreshUntilInputsChange(db, v, op, later, w, before, now, matches, ignored, hash);
    AcceptedPassIsProven(end, w, plan, scenario, raw);
    HistoryGrows(n, later);
    hide Answer, LookupsOk, IsFresh, IsUnchanged, Apply, VerdictError, Inv, Sees, IsReadable, IsSeparable;
    assert SameStart(n.runs[op.id], end.runs[op.id]);
  }

  lemma SameScenarioRows(a: Db, b: Db, id: string)
    requires id in b.runs && b == a.(runs := a.runs[id := b.runs[id]])
    ensures b.scenarios == a.scenarios
  {
  }
}
