/** When a finish and a completion are accepted, and what exactly they record. */
module Completion {
  import opened Wrappers
  import opened Text
  import opened Classify
  import opened Cause
  import opened Tables
  import opened RunLifecycle
  import opened Steps

  // ── finishing a run ────────────────────────────────────────────────────

  predicate ClaimsSuccess(q: FinishRequest) {
    q.result == Some(Success) || (q.result.None? && OutcomeOf(q).Passed())
  }

  predicate ClaimsFailure(q: FinishRequest) {
    q.result == Some(Failure) || (q.result.None? && !OutcomeOf(q).Passed())
  }

  /** Result, exit status, class and signature of the request do not contradict each other. */
  predicate IsConsistent(q: FinishRequest) {
    && (ClaimsSuccess(q) ==> OutcomeOf(q).Passed() && (q.class_.Some? ==> !q.class_.value.IsFailure()))
    && (ClaimsFailure(q) ==> if q.class_.Some? then q.class_.value.IsFailure() else !OutcomeOf(q).Passed())
    && (q.signature.Some? ==> Trim(q.signature.value) != "")
  }

  function ClassFor(w: World, r: Run, q: FinishRequest, report: Option<Report>, result: RunResult): FailureClass {
    if result.Aborted? then NoFailure
    else if q.class_.Some? then q.class_.value
    else if result.Success? then NoFailure
    else Classify.Classify(OutcomeOf(q), ReportOf(r, report).text, w.inRepo).failureClass
  }

  /** A finish of a run that carries nothing but a result is recorded as it is; any other is accepted exactly when it is
      consistent. The recorded result is the given one, else what the exit status says; the class is the caller's, else the
      classified one, and none for an aborted run. */
  lemma FinishAcceptedExactly(db: Db, w: World, r: Run, q: FinishRequest, report: Option<Report>)
    ensures var f := FinishOf(db, w, r, q, report);
            && (f.Ok? <==> if !IsStructured(q) && r.command.None? then q.result.Some? else IsConsistent(q))
            && (f.Ok? ==>
                  && f.value.at == w.now && f.value.outcome == OutcomeOf(q)
                  && (q.result.Some? ==> f.value.result == q.result.value)
                  && (q.result.None? ==> f.value.result == if OutcomeOf(q).Passed() then Success else Failure)
                  && (f.value.class_.None? <==> !IsStructured(q) && r.command.None?)
                  && (f.value.class_.None? || f.value.class_ == Some(ClassFor(w, r, q, report, f.value.result))))
  {
    ClassMatchesOutcome(OutcomeOf(q), ReportOf(r, report).text, w.inRepo);
    hide Classify.Classify, FailureCause, ManualSignature, ComputedIdentity, SignatureFor, BridgeFor, Trim;
  }

  // ── completing a task ──────────────────────────────────────────────────

  /** Every reference resolves to a scenario the task owns, and every verdict is admitted for it. */
  ghost predicate IsAdmitted(db: Db, w: World, t: Task, entries: seq<Entry>) {
    forall i :: 0 <= i < |entries| ==>
      var s := ResolveRef(db, t.planId, entries[i].scenario);
      && s.Some? && s.value in t.parents
      && VerdictError(db, w, t.planId, s.value, entries[i].verdict, Some(entries[i].evidence)).None?
  }

  /** A completion is accepted exactly for a task in progress with evidence that is not blank, about scenarios it owns, and
      admitted by the gates. It ends the task, and each scenario with evidence gets the verdict of its last entry in the
      task's round; nothing else changes. */
  lemma CompletionAcceptedExactly(db: Db, w: World, id: string, e: Evidence, v: (string, string))
    requires id in db.tasks
    ensures var t := db.tasks[id];
            var n := CompleteTask(db, w, id, e);
            && (n.Ok? <==> t.status.InProgress? && EvidenceError(e).None? && IsAdmitted(db, w, t, e.entries))
            && (n.Ok? ==>
                  && id in n.value.0 && n.value.0[id].status.Done? && n.value.0 == db.tasks[id := n.value.0[id]]
                  && n.value.0[id].evidence.Some?
                  && var entries := n.value.0[id].evidence.value.entries;
                     && |entries| == |e.entries|
                     && (forall i :: 0 <= i < |entries| ==>
                           && ResolveRef(db, t.planId, e.entries[i].scenario) == Some(entries[i].scenario)
                           && entries[i].verdict == e.entries[i].verdict && entries[i].evidence == e.entries[i].evidence)
                     && (if v.0 == t.roundId && exists i :: 0 <= i < |entries| && entries[i].scenario == v.1 then
                           && v in n.value.1
                           && exists i :: IsLastFor(entries, v.1, i) && n.value.1[v] == VerdictRow(entries[i].verdict, Some(entries[i].evidence))
                         else (v in n.value.1 <==> v in db.verdicts) && (v in n.value.1 ==> n.value.1[v] == db.verdicts[v])))
  {
    var t := db.tasks[id];
    ResolvedPointwise(db, t, e.entries);
    var entries := Resolved(db, t, e.entries);
    hide Resolved, FirstRefused, Recorded, EvidenceError, VerdictError, ResolveRef, IsLastFor;
    if entries.Some? {
      RefusedPointwise(db, w, t.planId, entries.value);
      RecordedExactly(db.verdicts, t.roundId, entries.value, v);
    }
  }

}
