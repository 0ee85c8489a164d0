/** Diagnosed signatures cannot be forged: every `sig:v2:` signature of a run or a bucket was derived by the daemon from a
    report, whatever callers send and whatever bridges copy. */
module Signatures {
  import opened Wrappers
  import opened Text
  import opened Classify
  import opened Cause
  import opened Digest
  import opened Tables
  import opened RunLifecycle
  import opened Steps
  import opened Ledger
  import opened Integrity

  /** The identity is what the failure-cause derivation gives for the run's contract and class on a report. */
  ghost predicate IsDerived(sha: string -> string, r: Run, class_: FailureClass, i: CauseIdentity) {
    exists errorClass: string, output: string, inRepo: string -> Option<string> ::
      i == FailureCause(sha, ContractId(r), class_, errorClass, output, inRepo)
  }

  predicate LooksDiagnosed(signature: string) {
    V2 <= signature
  }

  /** The run is finished with the key's class and signature, and derived that very signature. */
  predicate Minted(db: Db, run: string, k: Key) {
    && run in db.runs
    && var r := db.runs[run];
       && r.planId == Some(k.plan) && r.scenarioId == Some(k.scenario) && r.finish.Some?
       && r.finish.value.class_ == Some(k.class_) && r.finish.value.signature == Some(k.signature)
       && r.finish.value.identity.Some? && r.finish.value.identity.value.signature == k.signature
  }

  /** A finished run's identity was derived, and a diagnosed-looking signature is its own or that of a bucket of its scenario
      and class. */
  ghost predicate RunSigned(db: Db, sha: string -> string, r: Run) {
    r.finish.Some? ==>
      var f := r.finish.value;
      && (f.identity.Some? ==> f.class_.Some? && IsDerived(sha, r, f.class_.value, f.identity.value))
      && (f.signature.Some? && LooksDiagnosed(f.signature.value) ==>
            && f.identity.Some? && f.class_.Some?
            && (|| f.identity.value.signature == f.signature.value
                || (r.planId.Some? && r.scenarioId.Some?
                    && Key(r.planId.value, r.scenarioId.value, f.class_.value, f.signature.value) in db.budgets)))
  }

  ghost predicate SignedOk(db: Db, sha: string -> string) {
    && (forall k :: k in db.budgets && LooksDiagnosed(k.signature) ==> Minted(db, db.budgets[k].firstRun, k))
    && (forall r :: r in db.runs ==> RunSigned(db, sha, db.runs[r]))
  }

  // ── where signatures come from ─────────────────────────────────────────

  /** Neither a caller's hint nor a v1 digest looks diagnosed. */
  lemma ManualIsCoarse(w: World, r: Run, q: FinishRequest, report: Option<Report>, j: Judged)
    requires forall s :: IsDigest(w.sha(s))
    ensures !LooksDiagnosed(ManualSignature(w, r, q, report, j))
  {
    match j.hint
    case Some(raw) =>
      if V2 <= raw {
        assert ("caller:" + raw)[0] == 'c' && V2[0] == 's';
      }
    case None =>
      var c := Classify.Classify(OutcomeOf(q), ReportOf(r, report).text, w.inRepo);
      hide Classify.Classify, V1Material;
      var digest := w.sha(V1Material(ContractId(r), j.class_, c.failingTest.GetOr(""), c.errorClass, c.topFrame.GetOr("")));
      DigestIsNotV2(digest);
  }

  lemma DigestIsNotV2(digest: string)
    requires IsDigest(digest)
    ensures !(V2 <= "sig:" + digest)
  {
    assert ("sig:" + digest)[4] == digest[0];
    assert V2[4] == 'v';
  }

  lemma ComputedIsDerived(w: World, r: Run, q: FinishRequest, report: Option<Report>, class_: FailureClass)
    ensures var i := ComputedIdentity(w, r, q, report, class_); i.Some? ==> IsDerived(w.sha, r, class_, i.value)
  {
    var text := ReportOf(r, report);
    var error := Classify.Classify(OutcomeOf(q), text.text, w.inRepo).errorClass;
    var output := if text.truncated then "" else text.text;
    hide Classify.Classify, FailureCause, IsExecution;
    assert ComputedIdentity(w, r, q, report, class_).Some? ==>
             ComputedIdentity(w, r, q, report, class_).value
             == FailureCause(w.sha, ContractId(r), class_, error, output, w.inRepo);
  }

  /** A new terminal state is signed: a diagnosed-looking signature is the computed one or the bridge's. */
  lemma FinishIsSigned(db: Db, w: World, r: Run, q: FinishRequest, report: Option<Report>)
    requires forall s :: IsDigest(w.sha(s))
    ensures var f := FinishOf(db, w, r, q, report);
            f.Ok? ==>
              && (f.value.identity.Some? ==> f.value.class_.Some? && IsDerived(w.sha, r, f.value.class_.value, f.value.identity.value))
              && (f.value.signature.Some? && LooksDiagnosed(f.value.signature.value) ==>
                    && f.value.identity.Some? && f.value.class_.Some?
                    && (|| f.value.identity.value.signature == f.value.signature.value
                        || (r.planId.Some? && r.scenarioId.Some?
                            && Key(r.planId.value, r.scenarioId.value, f.value.class_.value, f.value.signature.value) in db.budgets)))
  {
    var classified := Classify.Classify(OutcomeOf(q), ReportOf(r, report).text, w.inRepo).failureClass;
    var j := Judge(q, OutcomeOf(q), classified);
    hide Classify.Classify, Judge, ManualSignature, ComputedIdentity, IsDerived, IsStructured, IsFallback;
    if j.Ok? {
      ManualIsCoarse(w, r, q, report, j.value);
      ComputedIsDerived(w, r, q, report, j.value.class_);
      BridgeHasKey(db, r, j.value.class_, ComputedIdentity(w, r, q, report, j.value.class_));
      hide LooksDiagnosed, BridgeFor;
    }
  }

  lemma BridgeHasKey(db: Db, r: Run, class_: FailureClass, computed: Option<CauseIdentity>)
    ensures var b := BridgeFor(db, r, class_, computed);
            b.Some? ==> r.planId.Some? && r.scenarioId.Some?
                        && b.value == Key(r.planId.value, r.scenarioId.value, class_, b.value.signature) && b.value in db.budgets
  {
    hide IsDiagnosed, Precedes;
  }

  // ── steps ──────────────────────────────────────────────────────────────

  lemma RunSignedGrows(a: Db, b: Db, sha: string -> string, r: Run)
    requires RunSigned(a, sha, r) && forall k :: k in a.budgets ==> k in b.budgets
    ensures RunSigned(b, sha, r)
  {
    hide IsDerived, LooksDiagnosed;
  }

  lemma MintedPersists(a: Db, b: Db, run: string, k: Key)
    requires Grows(a, b) && Minted(a, run, k)
    ensures Minted(b, run, k)
  {
    hide PlansGrow, ScenariosGrow, RoundsGrow, TasksGrow, BudgetsGrow;
  }

  /** Tables where nothing was finished: the facts about runs and buckets persist. */
  lemma QuietKeeps(a: Db, b: Db, sha: string -> string)
    requires SignedOk(a, sha) && Grows(a, b)
    requires b.budgets.Keys == a.budgets.Keys
    requires forall r :: r in b.runs && !(r in a.runs && b.runs[r] == a.runs[r]) ==> b.runs[r].finish.None?
    ensures SignedOk(b, sha)
  {
    hide Minted, LooksDiagnosed, PlansGrow, ScenariosGrow, RoundsGrow, TasksGrow, RunsGrow;
    forall k | k in b.budgets && LooksDiagnosed(k.signature) ensures Minted(b, b.budgets[k].firstRun, k) {
      MintedPersists(a, b, a.budgets[k].firstRun, k);
    }
    hide RunSigned, BudgetsGrow;
    forall r | r in b.runs ensures RunSigned(b, sha, b.runs[r]) {
      if r in a.runs && b.runs[r] == a.runs[r] {
        RunSignedGrows(a, b, sha, a.runs[r]);
      } else {
        UnfinishedIsSigned(b, sha, b.runs[r]);
      }
    }
  }

  lemma UnfinishedIsSigned(db: Db, sha: string -> string, r: Run)
    requires r.finish.None?
    ensures RunSigned(db, sha, r)
  {
  }

  /** A finish that opens a diagnosed-looking bucket is the run that derived its signature. */
  lemma TerminatedSigned(db: Db, sha: string -> string, id: string, f: Finish)
    requires SignedOk(db, sha) && id in db.runs && db.runs[id].finish.None?
    requires RunSigned(db, sha, db.runs[id].(finish := Some(f)))
    ensures var n := Terminated(db, id, db.runs[id], f);
            n.Ok? ==> SignedOk(db.(runs := n.value.0, budgets := n.value.1), sha)
  {
    var r := db.runs[id];
    var n := Terminated(db, id, r, f);
    if n.Ok? {
      TerminatedGrows(db, id, f);
      var next := db.(runs := n.value.0, budgets := n.value.1);
      ChargedKeys(db.budgets, DebitKey(r, f), id);
      var key := DebitKey(r, f);
      forall k | k in next.budgets && LooksDiagnosed(k.signature) ensures Minted(next, next.budgets[k].firstRun, k) {
        BucketMinted(db, sha, id, f, next, k);
      }
      hide RunSigned, Minted, LooksDiagnosed, DebitKey, Charged;
      forall x | x in next.runs ensures RunSigned(next, sha, next.runs[x]) {
        if x == id { RunSignedGrows(db, next, sha, r.(finish := Some(f))); } else { RunSignedGrows(db, next, sha, db.runs[x]); }
      }
    }
  }

  lemma ChargedKeys(budgets: Budgets, k: Option<Key>, run: string)
    ensures Charged(budgets, k, run).Keys == budgets.Keys + if k.Some? then {k.value} else {}
    ensures k.Some? && k.value !in budgets ==> Charged(budgets, k, run)[k.value].firstRun == run
    ensures forall j :: j in budgets ==> Charged(budgets, k, run)[j].firstRun == budgets[j].firstRun
  {
  }

  lemma BucketMinted(db: Db, sha: string -> string, id: string, f: Finish, next: Db, k: Key)
    requires SignedOk(db, sha) && id in db.runs && db.runs[id].finish.None?
    requires RunSigned(db, sha, db.runs[id].(finish := Some(f)))
    requires Terminated(db, id, db.runs[id], f) == Ok((next.runs, next.budgets))
    requires k in next.budgets && LooksDiagnosed(k.signature)
    ensures Minted(next, next.budgets[k].firstRun, k)
  {
    var r := db.runs[id];
    ChargedKeys(db.budgets, DebitKey(r, f), id);
    if k in db.budgets {
      assert Minted(db, db.budgets[k].firstRun, k);
      assert db.budgets[k].firstRun != id;
      hide SignedOk, RunSigned, Charged, DebitKey, LooksDiagnosed;
    } else {
      assert DebitKey(r, f) == Some(k);
      hide SignedOk, IsDerived, Charged;
    }
  }

  lemma FinishKeepsSigned(db: Db, w: World, id: string, q: FinishRequest, report: Option<Report>)
    requires SignedOk(db, w.sha) && forall s :: IsDigest(w.sha(s))
    ensures var n := FinishRun(db, w, id, q, report);
            n.Ok? ==> SignedOk(db.(runs := n.value.0, budgets := n.value.1), w.sha)
  {
    if id in db.runs && db.runs[id].finish.None? {
      var f := FinishOf(db, w, db.runs[id], q, report);
      FinishIsSigned(db, w, db.runs[id], q, report);
      hide FinishOf, Terminated, SignedOk, IsDerived, LooksDiagnosed;
      if f.Ok? {
        FinishedRunSigned(db, w.sha, db.runs[id], f.value);
        TerminatedSigned(db, w.sha, id, f.value);
      }
    }
  }

  lemma FinishedRunSigned(db: Db, sha: string -> string, r: Run, f: Finish)
    requires f.identity.Some? ==> f.class_.Some? && IsDerived(sha, r, f.class_.value, f.identity.value)
    requires f.signature.Some? && LooksDiagnosed(f.signature.value) ==>
               && f.identity.Some? && f.class_.Some?
               && (|| f.identity.value.signature == f.signature.value
                   || (r.planId.Some? && r.scenarioId.Some?
                       && Key(r.planId.value, r.scenarioId.value, f.class_.value, f.signature.value) in db.budgets))
    ensures RunSigned(db, sha, r.(finish := Some(f)))
  {
    if f.identity.Some? { DerivedIgnoresFinish(sha, r, f.class_.value, f.identity.value, f); }
    hide IsDerived, LooksDiagnosed;
  }

  lemma DerivedIgnoresFinish(sha: string -> string, r: Run, class_: FailureClass, i: CauseIdentity, f: Finish)
    requires IsDerived(sha, r, class_, i)
    ensures IsDerived(sha, r.(finish := Some(f)), class_, i)
  {
    hide FailureCause;
    assert ContractId(r.(finish := Some(f))) == ContractId(r);
  }

  lemma OtherStepsKeepSigned(db: Db, w: World, op: Op)
    requires SignedOk(db, w.sha) && !op.Finish?
    ensures SignedOk(Apply(db, w, op), w.sha)
  {
    StepGrows(db, w, op);
    if op.Start? {
      NewRunIsUnfinished(db, w, op);
      hide Apply, SignedOk, Grows;
    } else if op.Release? {
      ReleaseKeepsKeys(db, w, op);
      hide Apply, SignedOk, Grows;
    } else {
      OnlyRunRequestsTouchTheLedger(db, w, op);
      hide Apply, SignedOk, Grows;
    }
    QuietKeeps(db, Apply(db, w, op), w.sha);
  }

  lemma StartedRunIsUnfinished(db: Db, w: World, q: StartRequest, cwdPlan: Option<string>, id: string, owner: Option<string>,
                               round: Option<string>)
    ensures var n := StartRun(db, w, q, cwdPlan, id, owner, round);
            n.Ok? ==> forall r :: r in n.value && !(r in db.runs && n.value[r] == db.runs[r]) ==> n.value[r].finish.None?
  {
    StartRowOk(db, w, q, cwdPlan, owner, round);
    hide StartRow;
  }

  lemma NewRunIsUnfinished(db: Db, w: World, op: Op)
    requires op.Start?
    ensures var n := Apply(db, w, op);
            && n.budgets == db.budgets
            && forall r :: r in n.runs && !(r in db.runs && n.runs[r] == db.runs[r]) ==> n.runs[r].finish.None?
  {
    StartedTables(db, w, op);
    hide Apply, StartRun, LookupsOk;
    StartedRunIsUnfinished(db, w, op.request, op.cwdPlan, op.id, op.owner, op.round);
  }

  lemma ReleaseKeepsKeys(db: Db, w: World, op: Op)
    requires op.Release?
    ensures Apply(db, w, op).budgets.Keys == db.budgets.Keys && Apply(db, w, op).runs == db.runs
  {
    RunAnswers(db, w, op);
    hide Answer, ResolveScenario, LookupsOk;
  }

  lemma StepKeepsSigned(db: Db, w: World, op: Op)
    requires SignedOk(db, w.sha) && forall s :: IsDigest(w.sha(s))
    ensures SignedOk(Apply(db, w, op), w.sha)
  {
    if op.Finish? {
      FinishKeepsSigned(db, w, op.id, op.finish, op.report);
      hide FinishRun, SignedOk;
    } else {
      hide SignedOk, Apply;
      OtherStepsKeepSigned(db, w, op);
    }
  }

  /** All requests see the same digest function, whose output is hexadecimal. */
  ghost predicate OneDigest(events: seq<Event>, sha: string -> string) {
    (forall s :: IsDigest(sha(s))) && forall i :: 0 <= i < |events| ==> events[i].world.sha == sha
  }

  lemma {:induction false} ReachableIsSigned(events: seq<Event>, sha: string -> string)
    requires OneDigest(events, sha)
    ensures SignedOk(After(EMPTY, events), sha)
  {
    if events != [] {
      var before := events[..|events| - 1];
      ReachableIsSigned(before, sha);
      hide SignedOk, Apply;
      var e := events[|events| - 1];
      StepKeepsSigned(After(EMPTY, before), e.world, e.op);
    }
  }

  // ── main results ───────────────────────────────────────────────────────

  /** In every reachable database a bucket whose signature looks diagnosed was opened by a finished run of its plan, scenario
      and class whose own derived identity has exactly that signature. */
  lemma DiagnosedBucketsAreDerived(events: seq<Event>, sha: string -> string, k: Key)
    requires OneDigest(events, sha)
    requires k in After(EMPTY, events).budgets && LooksDiagnosed(k.signature)
    ensures var db := After(EMPTY, events);
            && Minted(db, db.budgets[k].firstRun, k)
            && var r := db.runs[db.budgets[k].firstRun];
               IsDerived(sha, r, k.class_, r.finish.value.identity.value)
  {
    ReachableIsSigned(events, sha);
    var db := After(EMPTY, events);
    hide After, IsDerived;
    assert RunSigned(db, sha, db.runs[db.budgets[k].firstRun]);
  }

  /** So was every diagnosed-looking signature of a finished run: its own identity has it, or the bucket it was booked to. */
  lemma DiagnosedRunsAreDerived(events: seq<Event>, sha: string -> string, id: string)
    requires OneDigest(events, sha)
    requires id in After(EMPTY, events).runs && After(EMPTY, events).runs[id].finish.Some?
    requires var f := After(EMPTY, events).runs[id].finish.value; f.signature.Some? && LooksDiagnosed(f.signature.value)
    ensures var db := After(EMPTY, events);
            var f := db.runs[id].finish.value;
            exists run :: run in db.runs && db.runs[run].finish.Some? && db.runs[run].finish.value.identity.Some?
                          && db.runs[run].finish.value.class_ == f.class_ && f.class_.Some?
                          && db.runs[run].finish.value.identity.value.signature == f.signature.value
                          && IsDerived(sha, db.runs[run], f.class_.value, db.runs[run].finish.value.identity.value)
  {
    ReachableIsSigned(events, sha);
    var db := After(EMPTY, events);
    hide After, IsDerived, LooksDiagnosed;
    var r := db.runs[id];
    var f := r.finish.value;
    assert RunSigned(db, sha, r);
    if f.identity.value.signature != f.signature.value {
      var k := Key(r.planId.value, r.scenarioId.value, f.class_.value, f.signature.value);
      assert Minted(db, db.budgets[k].firstRun, k);
      assert RunSigned(db, sha, db.runs[db.budgets[k].firstRun]);
    }
  }

  /** A derived identity whose signature is not a fallback one names a primary diagnostic of version 2. */
  lemma DerivedPreciseIsPrimary(sha: string -> string, r: Run, class_: FailureClass, i: CauseIdentity)
    requires IsDerived(sha, r, class_, i) && !(V2_FALLBACK <= i.signature)
    ensures i.version == 2 && i.basis == PRIMARY
  {
    var errorClass: string, output: string, inRepo: string -> Option<string>
      :| i == FailureCause(sha, ContractId(r), class_, errorClass, output, inRepo);
    hide Material, BroadErrorClass, FirstHit, Stripped, Lines;
  }

  /** In every reachable database the diagnosis probe of the compatibility bridge agrees with the shape of the signature. */
  lemma ProbeAgreesWithShape(events: seq<Event>, sha: string -> string, k: Key)
    requires OneDigest(events, sha) && k in After(EMPTY, events).budgets
    ensures IsDiagnosed(After(EMPTY, events), k) <==> LooksDiagnosed(k.signature) && !(V2_FALLBACK <= k.signature)
  {
    var db := After(EMPTY, events);
    if LooksDiagnosed(k.signature) && !(V2_FALLBACK <= k.signature) {
      DiagnosedBucketsAreDerived(events, sha, k);
      hide After, IsDerived;
      var r := db.runs[db.budgets[k].firstRun];
      DerivedPreciseIsPrimary(sha, r, k.class_, r.finish.value.identity.value);
    }
    hide After;
  }

  /** While a coarse counter of the class is outstanding, a new diagnosis cannot open a bucket of its own: the failure is
      charged to an existing one. */
  lemma DiagnosisCannotRepartition(db: Db, w: World, id: string, q: FinishRequest, report: Option<Report>, k: Key)
    requires id in db.runs && FinishRun(db, w, id, q, report).Ok?
    requires var f := FinishRun(db, w, id, q, report).value.0[id].finish;
             f.Some? && f.value.identity.Some? && f.value.class_ == Some(k.class_)
             && IsCandidate(db, k.plan, k.scenario, k.class_, IsFallback(f.value.identity.value), k)
    requires db.runs[id].planId == Some(k.plan) && db.runs[id].scenarioId == Some(k.scenario)
    ensures FinishRun(db, w, id, q, report).value.1.Keys == db.budgets.Keys
  {
    var r := db.runs[id];
    hide Classify.Classify, Judge, ManualSignature, ComputedIdentity, IsStructured, IsDiagnosed, Precedes, IsFallback;
    var f := FinishOf(db, w, r, q, report).value;
    var bridge := BridgeFor(db, r, k.class_, f.identity);
    BridgeHasKey(db, r, k.class_, f.identity);
    assert bridge.Some?;
    assert f.signature == Some(bridge.value.signature);
    ChargedKeys(db.budgets, DebitKey(r, f), id);
    hide Charged, FinishOf, BridgeFor;
  }
}
