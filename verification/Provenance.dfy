/** Find-or-create of the sentinel and the chore container by concurrent callers. */
module Provenance {
  import opened Wrappers

  datatype Kind = PlanRow | RoundRow | PatternRow

  /** A row of the shared store. Rounds also carry a number; `scope` is the project of a plan, the plan of the others. */
  datatype Row = Row(kind: Kind, scope: string, code: string, number: Option<int>, id: string)

  const CHORE := "CHORE"
  const CHORE_ROUND := "CHORE-R"
  const DIRECT := "DIRECT-"

  /** The unique indexes: a code is used once within a scope, and so is a round number. */
  predicate Clash(a: Row, b: Row) {
    a.kind == b.kind && a.scope == b.scope && (a.code == b.code || (a.number.Some? && a.number == b.number))
  }

  predicate Clashes(rows: seq<Row>, r: Row) {
    exists i :: 0 <= i < |rows| && Clash(rows[i], r)
  }

  function Find(rows: seq<Row>, kind: Kind, scope: string, code: string): (r: Option<Row>)
    ensures r.Some? ==> r.value in rows && r.value.kind == kind && r.value.scope == scope && r.value.code == code
    ensures r.None? ==> forall i :: 0 <= i < |rows| ==> !(rows[i].kind == kind && rows[i].scope == scope && rows[i].code == code)
  {
    if rows == [] then None
    else if rows[0].kind == kind && rows[0].scope == scope && rows[0].code == code then Some(rows[0])
    else Find(rows[1..], kind, scope, code)
  }

  function FindPlan(rows: seq<Row>, id: string): Option<Row> {
    if rows == [] then None
    else if rows[0].kind == PlanRow && rows[0].id == id then Some(rows[0])
    else FindPlan(rows[1..], id)
  }

  // ── one caller ─────────────────────────────────────────────────────────

  /** What a caller is asked for, with the ids it will use if it has to insert. */
  datatype Job =
    | Direct(plan: string, freshPattern: string)
    | Chore(project: string, freshPlan: string, freshRound: string)

  /** A row to find or create. */
  datatype Target = Target(kind: Kind, scope: string, code: string, number: Option<int>, fresh_: string)

  datatype Phase =
    | Begin
    | Looking(target: Target)
    | Inserting(target: Target)
    | ReReading(target: Target)
    | Returned(ids: seq<string>)
    | PlanMissing
    | Lost(target: Target)
    | Faulted

  function RowOf(t: Target): Row {
    Row(t.kind, t.scope, t.code, t.number, t.fresh_)
  }

  function Sentinel(plan: Row, fresh_: string): Target {
    Target(PatternRow, plan.id, DIRECT + plan.code, None, fresh_)
  }

  function ChorePlan(project: string, fresh_: string): Target {
    Target(PlanRow, project, CHORE, None, fresh_)
  }

  function ChoreRound(plan: string, fresh_: string): Target {
    Target(RoundRow, plan, CHORE_ROUND, Some(1), fresh_)
  }

  /** A row is there: return it, or go on from the chore plan to its round. */
  function Obtained(job: Job, t: Target, id: string): Phase {
    if job.Chore? && t.kind == PlanRow then Looking(ChoreRound(id, job.freshRound))
    else if job.Chore? then Returned([t.scope, id])
    else Returned([id])
  }

  /** One atomic statement of a caller. */
  function Step(rows: seq<Row>, job: Job, phase: Phase): (seq<Row>, Phase) {
    match phase
    case Begin =>
      (match job
       case Direct(plan, fresh_) =>
         (match FindPlan(rows, plan)
          case None => (rows, PlanMissing)
          case Some(p) => (rows, Looking(Sentinel(p, fresh_))))
       case Chore(project, fresh_, _) => (rows, Looking(ChorePlan(project, fresh_))))
    case Looking(t) =>
      (match Find(rows, t.kind, t.scope, t.code)
       case Some(r) => (rows, Obtained(job, t, r.id))
       case None => (rows, Inserting(t)))
    case Inserting(t) =>
      if Clashes(rows, RowOf(t)) then (rows, ReReading(t)) else (rows + [RowOf(t)], Obtained(job, t, t.fresh_))
    case ReReading(t) =>
      (match Find(rows, t.kind, t.scope, t.code)
       case Some(r) => (rows, Obtained(job, t, r.id))
       case None => (rows, Lost(t)))
    case _ => (rows, phase)
  }

  predicate Ended(phase: Phase) {
    phase.Returned? || phase.PlanMissing? || phase.Lost? || phase.Faulted?
  }

  /** Statements a caller can still execute. */
  function Rank(job: Job, phase: Phase): nat {
    match phase
    case Begin => 7
    case Looking(t) => if job.Chore? && t.kind == PlanRow then 6 else 3
    case Inserting(t) => if job.Chore? && t.kind == PlanRow then 5 else 2
    case ReReading(t) => if job.Chore? && t.kind == PlanRow then 4 else 1
    case _ => 0
  }

  /** A caller is wait-free: whatever the others do to the store, it ends within seven statements of its own. */
  lemma StepDescends(rows: seq<Row>, job: Job, phase: Phase)
    requires !Ended(phase)
    ensures Rank(job, Step(rows, job, phase).1) < Rank(job, phase) <= 7
  {
  }

  // ── any number of callers ──────────────────────────────────────────────

  datatype Caller = Caller(job: Job, phase: Phase)

  datatype System = System(rows: seq<Row>, callers: seq<Caller>)

  predicate Unique(rows: seq<Row>) {
    forall i, j :: 0 <= i < j < |rows| ==> !Clash(rows[i], rows[j])
  }

  predicate Init(s: System) {
    Unique(s.rows) && forall i :: 0 <= i < |s.callers| ==> s.callers[i].phase == Begin
  }

  function Stepped(s: System, i: nat): System
    requires i < |s.callers|
  {
    var next := Step(s.rows, s.callers[i].job, s.callers[i].phase);
    System(next.0, s.callers[i := s.callers[i].(phase := next.1)])
  }

  /** The busy store fails one statement of a caller, which reports the error. */
  function Fault(s: System, i: nat): System
    requires i < |s.callers|
  {
    s.(callers := s.callers[i := s.callers[i].(phase := if Ended(s.callers[i].phase) then s.callers[i].phase else Faulted)])
  }

  datatype Event = Take(caller: nat) | Fail(caller: nat) | Other(row: Row)

  /** A caller executes a statement, a statement fails, or other code inserts a row the indexes admit. */
  function After(s: System, e: Event): System {
    match e
    case Take(i) => if i < |s.callers| then Stepped(s, i) else s
    case Fail(i) => if i < |s.callers| then Fault(s, i) else s
    case Other(r) => if Clashes(s.rows, r) then s else s.(rows := s.rows + [r])
  }

  function Run(s: System, events: seq<Event>): System {
    if events == [] then s else After(Run(s, events[..|events| - 1]), events[|events| - 1])
  }

  // ── the store only grows ───────────────────────────────────────────────

  lemma {:induction false} FindGrows(rows: seq<Row>, more: seq<Row>, kind: Kind, scope: string, code: string)
    requires Find(rows, kind, scope, code).Some?
    ensures Find(rows + more, kind, scope, code) == Find(rows, kind, scope, code)
  {
    assert (rows + more)[1..] == rows[1..] + more;
    if !(rows[0].kind == kind && rows[0].scope == scope && rows[0].code == code) {
      FindGrows(rows[1..], more, kind, scope, code);
    }
  }

  lemma {:induction false} FindPlanGrows(rows: seq<Row>, more: seq<Row>, id: string)
    requires FindPlan(rows, id).Some?
    ensures FindPlan(rows + more, id) == FindPlan(rows, id)
  {
    assert (rows + more)[1..] == rows[1..] + more;
    if !(rows[0].kind == PlanRow && rows[0].id == id) {
      FindPlanGrows(rows[1..], more, id);
    }
  }

  lemma {:induction false} FindAppended(rows: seq<Row>, r: Row)
    requires Find(rows, r.kind, r.scope, r.code).None?
    ensures Find(rows + [r], r.kind, r.scope, r.code) == Some(r)
  {
    if rows == [] {
      assert rows + [r] == [r];
    } else {
      assert (rows + [r])[1..] == rows[1..] + [r];
      FindAppended(rows[1..], r);
    }
  }

  // ── the invariant ──────────────────────────────────────────────────────

  /** The one answer a store admits to a job: found by key, so the same for every caller. */
  function Answer(rows: seq<Row>, job: Job): Option<seq<string>> {
    match job
    case Direct(plan, _) =>
      (match FindPlan(rows, plan)
       case None => None
       case Some(p) =>
         match Find(rows, PatternRow, p.id, DIRECT + p.code)
         case None => None
         case Some(r) => Some([r.id]))
    case Chore(project, _, _) =>
      match Find(rows, PlanRow, project, CHORE)
      case None => None
      case Some(p) =>
        match Find(rows, RoundRow, p.id, CHORE_ROUND)
        case None => None
        case Some(r) => Some([p.id, r.id])
  }

  /** A caller looks for the row its job calls for. */
  predicate TargetOk(rows: seq<Row>, job: Job, t: Target) {
    match job
    case Direct(plan, fresh_) => FindPlan(rows, plan).Some? && t == Sentinel(FindPlan(rows, plan).value, fresh_)
    case Chore(project, freshPlan, freshRound) =>
      || t == ChorePlan(project, freshPlan)
      || (Find(rows, PlanRow, project, CHORE).Some? && t == ChoreRound(Find(rows, PlanRow, project, CHORE).value.id, freshRound))
  }

  /** A round of number 1 under another code stands where the chore round should go. */
  predicate ForeignRound(rows: seq<Row>, plan: string) {
    exists i :: 0 <= i < |rows| && rows[i].kind == RoundRow && rows[i].scope == plan && rows[i].number == Some(1)
                && rows[i].code != CHORE_ROUND
  }

  predicate PhaseOk(rows: seq<Row>, c: Caller) {
    match c.phase
    case Looking(t) => TargetOk(rows, c.job, t)
    case Inserting(t) => TargetOk(rows, c.job, t)
    case ReReading(t) => TargetOk(rows, c.job, t) && Clashes(rows, RowOf(t))
    case Returned(ids) => Answer(rows, c.job) == Some(ids)
    case Lost(t) => c.job.Chore? && t.kind == RoundRow && ForeignRound(rows, t.scope)
    case _ => true
  }

  predicate Inv(s: System) {
    Unique(s.rows) && forall i :: 0 <= i < |s.callers| ==> PhaseOk(s.rows, s.callers[i])
  }

  lemma AnswerGrows(rows: seq<Row>, more: seq<Row>, job: Job)
    requires Answer(rows, job).Some?
    ensures Answer(rows + more, job) == Answer(rows, job)
  {
    match job
    case Direct(plan, _) =>
      FindPlanGrows(rows, more, plan);
      var p := FindPlan(rows, plan).value;
      FindGrows(rows, more, PatternRow, p.id, DIRECT + p.code);
    case Chore(project, _, _) =>
      FindGrows(rows, more, PlanRow, project, CHORE);
      var p := Find(rows, PlanRow, project, CHORE).value;
      FindGrows(rows, more, RoundRow, p.id, CHORE_ROUND);
  }

  lemma TargetGrows(rows: seq<Row>, more: seq<Row>, job: Job, t: Target)
    requires TargetOk(rows, job, t)
    ensures TargetOk(rows + more, job, t)
  {
    match job
    case Direct(plan, _) => FindPlanGrows(rows, more, plan);
    case Chore(project, _, _) =>
      if Find(rows, PlanRow, project, CHORE).Some? { FindGrows(rows, more, PlanRow, project, CHORE); }
  }

  /** What is true of a caller stays true while the store grows. */
  lemma PhaseGrows(rows: seq<Row>, r: Row, c: Caller)
    requires PhaseOk(rows, c)
    ensures PhaseOk(rows + [r], c)
  {
    hide TargetOk, Answer;
    match c.phase
    case Looking(t) => TargetGrows(rows, [r], c.job, t);
    case Inserting(t) => TargetGrows(rows, [r], c.job, t);
    case ReReading(t) =>
      TargetGrows(rows, [r], c.job, t);
      var i :| 0 <= i < |rows| && Clash(rows[i], RowOf(t));
      assert Clash((rows + [r])[i], RowOf(t));
    case Returned(ids) => AnswerGrows(rows, [r], c.job);
    case Lost(t) =>
      var i :| 0 <= i < |rows| && rows[i].kind == RoundRow && rows[i].scope == t.scope && rows[i].number == Some(1)
               && rows[i].code != CHORE_ROUND;
      assert (rows + [r])[i] == rows[i];
    case _ =>
  }

  lemma ObtainedOk(rows: seq<Row>, job: Job, t: Target, id: string)
    requires TargetOk(rows, job, t)
    requires Find(rows, t.kind, t.scope, t.code).Some? && Find(rows, t.kind, t.scope, t.code).value.id == id
    ensures PhaseOk(rows, Caller(job, Obtained(job, t, id)))
  {
  }

  /** A caller that re-reads after a conflict and finds nothing lost to a round that took the number, not the code. */
  lemma LostToForeignRound(rows: seq<Row>, job: Job, t: Target)
    requires TargetOk(rows, job, t) && Clashes(rows, RowOf(t)) && Find(rows, t.kind, t.scope, t.code).None?
    ensures job.Chore? && t.kind == RoundRow && ForeignRound(rows, t.scope)
  {
    var i :| 0 <= i < |rows| && Clash(rows[i], RowOf(t));
    assert rows[i].code != t.code;
    assert t.number.Some?;
  }

  lemma CallerStepOk(rows: seq<Row>, c: Caller)
    requires Unique(rows) && PhaseOk(rows, c)
    ensures var next := Step(rows, c.job, c.phase);
            Unique(next.0) && PhaseOk(next.0, c.(phase := next.1)) && (next.0 == rows || exists r :: next.0 == rows + [r])
  {
    match c.phase
    case Looking(t) =>
      hide TargetOk;
      if Find(rows, t.kind, t.scope, t.code).Some? {
        ObtainedOk(rows, c.job, t, Find(rows, t.kind, t.scope, t.code).value.id);
      }
    case Inserting(t) =>
      var r := RowOf(t);
      if !Clashes(rows, r) {
        TargetGrows(rows, [r], c.job, t);
        FindAppended(rows, r);
        hide TargetOk;
        ObtainedOk(rows + [r], c.job, t, t.fresh_);
      }
    case ReReading(t) =>
      if Find(rows, t.kind, t.scope, t.code).Some? {
        hide TargetOk;
        ObtainedOk(rows, c.job, t, Find(rows, t.kind, t.scope, t.code).value.id);
      } else {
        LostToForeignRound(rows, c.job, t);
      }
    case _ =>
  }

  lemma EventKeepsInv(s: System, e: Event)
    requires Inv(s)
    ensures Inv(After(s, e))
  {
    match e
    case Take(i) =>
      if i < |s.callers| {
        var c := s.callers[i];
        CallerStepOk(s.rows, c);
        hide PhaseOk, Step;
        var next := Step(s.rows, c.job, c.phase);
        forall j | 0 <= j < |s.callers| && j != i ensures PhaseOk(next.0, s.callers[j]) {
          if r :| next.0 == s.rows + [r] { PhaseGrows(s.rows, r, s.callers[j]); }
        }
      }
    case Fail(i) =>
    case Other(r) =>
      hide PhaseOk;
      if !Clashes(s.rows, r) {
        forall j | 0 <= j < |s.callers| ensures PhaseOk(s.rows + [r], s.callers[j]) { PhaseGrows(s.rows, r, s.callers[j]); }
      }
  }

  lemma {:induction false} RunKeepsInv(s: System, events: seq<Event>)
    requires Init(s)
    ensures Inv(Run(s, events))
  {
    if events != [] {
      RunKeepsInv(s, events[..|events| - 1]);
      hide Inv, Init;
      EventKeepsInv(Run(s, events[..|events| - 1]), events[|events| - 1]);
    }
  }

  // ── main results ───────────────────────────────────────────────────────

  /** Whatever the interleaving, no two rows share a key, and losing a race is an error only for a chore caller whose round
      number 1 was taken by a round of another code. A sentinel caller never loses. */
  lemma LostRacesAreHarmless(s: System, events: seq<Event>, i: nat)
    requires Init(s) && i < |Run(s, events).callers|
    ensures Unique(Run(s, events).rows)
    ensures var c := Run(s, events).callers[i];
            c.phase.Lost? ==> c.job.Chore? && c.phase.target.kind == RoundRow
                              && ForeignRound(Run(s, events).rows, c.phase.target.scope)
  {
    RunKeepsInv(s, events);
    assert PhaseOk(Run(s, events).rows, Run(s, events).callers[i]);
  }

  /** Two jobs that ask for the same thing. */
  predicate SameRequest(a: Job, b: Job) {
    match a
    case Direct(plan, _) => b.Direct? && b.plan == plan
    case Chore(project, _, _) => b.Chore? && b.project == project
  }

  lemma EventGrows(s: System, e: Event)
    ensures s.rows <= After(s, e).rows
  {
  }

  lemma RunSnoc(s: System, events: seq<Event>, e: Event)
    ensures Run(s, events + [e]) == After(Run(s, events), e)
  {
    hide After;
    assert (events + [e])[..|events|] == events;
  }

  lemma {:induction false} RunGrows(s: System, events: seq<Event>, later: seq<Event>)
    ensures Run(s, events).rows <= Run(s, events + later).rows
    decreases |later|
  {
    hide Run, After;
    if later == [] {
      assert events + later == events;
    } else {
      var n := |later| - 1;
      RunGrows(s, events, later[..n]);
      EventGrows(Run(s, events + later[..n]), later[n]);
      RunSnoc(s, events + later[..n], later[n]);
      assert events + later == events + later[..n] + [later[n]];
    }
  }

  /** All callers asking for the same thing return the same ids, even at different times of the run. */
  lemma SameIds(s: System, events: seq<Event>, later: seq<Event>, i: nat, j: nat)
    requires Init(s)
    requires i < |Run(s, events).callers| && j < |Run(s, events + later).callers|
    requires Run(s, events).callers[i].phase.Returned? && Run(s, events + later).callers[j].phase.Returned?
    requires SameRequest(Run(s, events).callers[i].job, Run(s, events + later).callers[j].job)
    ensures Run(s, events).callers[i].phase == Run(s, events + later).callers[j].phase
  {
    var a, b := Run(s, events), Run(s, events + later);
    RunKeepsInv(s, events);
    RunKeepsInv(s, events + later);
    RunGrows(s, events, later);
    assert PhaseOk(a.rows, a.callers[i]) && PhaseOk(b.rows, b.callers[j]);
    hide PhaseOk;
    assert b.rows == a.rows + b.rows[|a.rows|..];
    AnswerGrows(a.rows, b.rows[|a.rows|..], a.callers[i].job);
  }

  // ── a caller left alone ────────────────────────────────────────────────

  function Solo(rows: seq<Row>, job: Job, phase: Phase): (seq<Row>, Phase)
    decreases Rank(job, phase)
  {
    if Ended(phase) then (rows, phase)
    else
      StepDescends(rows, job, phase);
      var next := Step(rows, job, phase);
      Solo(next.0, job, next.1)
  }

  /** The store as one connection sees it. */
  class Store {
    var rows: seq<Row>

    constructor ()
      ensures rows == []
    {
      rows := [];
    }

    /** `insert`: false when a unique index refuses the row. */
    method Insert(r: Row) returns (ok: bool)
      modifies this
      ensures ok == !Clashes(old(rows), r)
      ensures rows == if ok then old(rows) + [r] else old(rows)
    {
      ok := true;
      var i := 0;
      while i < |rows|
        invariant 0 <= i <= |rows|
        invariant ok == !Clashes(rows[..i], r)
        invariant rows == old(rows)
      {
        assert rows[..i + 1] == rows[..i] + [rows[i]];
        if Clash(rows[i], r) {
          ok := false;
          assert Clash(rows[..i + 1][i], r);
        } else if !ok {
          var k :| 0 <= k < |rows[..i]| && Clash(rows[..i][k], r);
          assert Clash(rows[..i + 1][k], r);
        }
        i := i + 1;
      }
      assert rows[..|rows|] == rows;
      if ok {
        rows := rows + [r];
      }
    }

    /** Look up, insert, and re-read after a conflict. */
    method Ensure(t: Target) returns (id: Option<string>)
      modifies this
      ensures id == EnsuredId(old(rows), t)
      ensures rows == EnsuredRows(old(rows), t)
    {
      var existing := Find(rows, t.kind, t.scope, t.code);
      if existing.Some? {
        return Some(existing.value.id);
      }
      var ok := Insert(RowOf(t));
      if ok {
        return Some(t.fresh_);
      }
      var winner := Find(rows, t.kind, t.scope, t.code);
      return match winner case Some(r) => Some(r.id) case None => None;
    }

    method EnsureChoreContainer(project: string, freshPlan: string, freshRound: string) returns (ids: Option<(string, string)>)
      modifies this
      ensures var end := Solo(old(rows), Chore(project, freshPlan, freshRound), Begin);
              && rows == end.0
              && (ids.Some? <==> end.1.Returned?)
              && (ids.Some? ==> end.1.ids == [ids.value.0, ids.value.1])
    {
      ghost var start := rows;
      var plan := Ensure(ChorePlan(project, freshPlan));
      ghost var middle := rows;
      ChorePlanEnsured(start, project, freshPlan, freshRound);
      if plan.None? {
        return None;
      }
      var round := Ensure(ChoreRound(plan.value, freshRound));
      LastRowEnsured(middle, Chore(project, freshPlan, freshRound), ChoreRound(plan.value, freshRound));
      if round.None? {
        return None;
      }
      return Some((plan.value, round.value));
    }

    method EnsureDirectPattern(plan: string, freshPattern: string) returns (id: Option<string>)
      modifies this
      ensures var end := Solo(old(rows), Direct(plan, freshPattern), Begin);
              rows == end.0 && end.1 == match id
                case Some(x) => Returned([x])
                case None => if FindPlan(old(rows), plan).None? then PlanMissing else Lost(Sentinel(FindPlan(old(rows), plan).value, freshPattern))
    {
      var p := FindPlan(rows, plan);
      if p.None? {
        return None;
      }
      ghost var start := rows;
      id := Ensure(Sentinel(p.value, freshPattern));
      LastRowEnsured(start, Direct(plan, freshPattern), Sentinel(p.value, freshPattern));
    }
  }

  function EnsuredId(rows: seq<Row>, t: Target): Option<string> {
    match Find(rows, t.kind, t.scope, t.code)
    case Some(r) => Some(r.id)
    case None => if Clashes(rows, RowOf(t)) then None else Some(t.fresh_)
  }

  function EnsuredRows(rows: seq<Row>, t: Target): seq<Row> {
    if Find(rows, t.kind, t.scope, t.code).None? && !Clashes(rows, RowOf(t)) then rows + [RowOf(t)] else rows
  }

  lemma LastRowEnsured(rows: seq<Row>, job: Job, t: Target)
    requires !(job.Chore? && t.kind == PlanRow)
    ensures Solo(rows, job, Looking(t)).0 == EnsuredRows(rows, t)
    ensures Solo(rows, job, Looking(t)).1
            == match EnsuredId(rows, t) case Some(id) => Obtained(job, t, id) case None => Lost(t)
  {
    SoloUnfolds(rows, job, Looking(t));
    if Find(rows, t.kind, t.scope, t.code).None? {
      SoloUnfolds(rows, job, Inserting(t));
      if Clashes(rows, RowOf(t)) {
        SoloUnfolds(rows, job, ReReading(t));
      }
    }
  }

  lemma SoloUnfolds(rows: seq<Row>, job: Job, phase: Phase)
    requires !Ended(phase)
    ensures Solo(rows, job, phase) == Solo(Step(rows, job, phase).0, job, Step(rows, job, phase).1)
  {
  }

  lemma ChorePlanEnsured(rows: seq<Row>, project: string, freshPlan: string, freshRound: string)
    ensures EnsuredId(rows, ChorePlan(project, freshPlan)).Some?
    ensures var t := ChorePlan(project, freshPlan);
            Solo(rows, Chore(project, freshPlan, freshRound), Begin)
            == Solo(EnsuredRows(rows, t), Chore(project, freshPlan, freshRound),
                    Looking(ChoreRound(EnsuredId(rows, t).value, freshRound)))
  {
    var t := ChorePlan(project, freshPlan);
    var job := Chore(project, freshPlan, freshRound);
    SoloUnfolds(rows, job, Begin);
    SoloUnfolds(rows, job, Looking(t));
    if Find(rows, t.kind, t.scope, t.code).None? {
      SoloUnfolds(rows, job, Inserting(t));
    }
  }

  /** Calling again, for the same thing and with other fresh ids, returns the same ids and changes nothing. */
  lemma AskingAgainChangesNothing(rows: seq<Row>, job: Job, again: Job)
    requires SameRequest(job, again)
    requires Solo(rows, job, Begin).1.Returned?
    requires Unique(rows)
    ensures Solo(Solo(rows, job, Begin).0, again, Begin) == Solo(rows, job, Begin)
  {
    SoloIsRun(rows, job, Begin);
    var end := Solo(rows, job, Begin);
    AnswerIsSolo(end.0, again, end.1.ids);
  }

  lemma {:induction false} SoloIsRun(rows: seq<Row>, job: Job, phase: Phase)
    requires Unique(rows) && PhaseOk(rows, Caller(job, phase))
    ensures PhaseOk(Solo(rows, job, phase).0, Caller(job, Solo(rows, job, phase).1))
    decreases Rank(job, phase)
  {
    if !Ended(phase) {
      StepDescends(rows, job, phase);
      CallerStepOk(rows, Caller(job, phase));
      hide PhaseOk;
      var next := Step(rows, job, phase);
      SoloIsRun(next.0, job, next.1);
    }
  }

  lemma AnswerIsSolo(rows: seq<Row>, job: Job, ids: seq<string>)
    requires Answer(rows, job) == Some(ids)
    ensures Solo(rows, job, Begin) == (rows, Returned(ids))
  {
    match job
    case Direct(plan, fresh_) =>
      LastRowEnsured(rows, job, Sentinel(FindPlan(rows, plan).value, fresh_));
    case Chore(project, freshPlan, freshRound) =>
      ChorePlanEnsured(rows, project, freshPlan, freshRound);
      LastRowEnsured(rows, job, ChoreRound(Find(rows, PlanRow, project, CHORE).value.id, freshRound));
  }

  /** Exactly when a chore caller left alone fails: its plan is there, without a chore round, and another round has number 1. */
  lemma ChoreFailsExactly(rows: seq<Row>, project: string, freshPlan: string, freshRound: string)
    requires forall i :: 0 <= i < |rows| ==> rows[i].scope != freshPlan
    ensures var end := Solo(rows, Chore(project, freshPlan, freshRound), Begin).1;
            var plan := Find(rows, PlanRow, project, CHORE);
            && (end.Lost? <==> plan.Some? && Find(rows, RoundRow, plan.value.id, CHORE_ROUND).None? && ForeignRound(rows, plan.value.id))
            && (!end.Lost? ==> end.Returned?)
  {
    var job := Chore(project, freshPlan, freshRound);
    ChorePlanEnsured(rows, project, freshPlan, freshRound);
    var t := ChorePlan(project, freshPlan);
    var after := EnsuredRows(rows, t);
    var round := ChoreRound(EnsuredId(rows, t).value, freshRound);
    LastRowEnsured(after, job, round);
    if Find(after, RoundRow, round.scope, CHORE_ROUND).None? {
      ClashIsForeign(after, round.scope, freshRound);
    }
  }

  lemma ClashIsForeign(rows: seq<Row>, plan: string, freshRound: string)
    requires Find(rows, RoundRow, plan, CHORE_ROUND).None?
    ensures Clashes(rows, RowOf(ChoreRound(plan, freshRound))) <==> ForeignRound(rows, plan)
  {
    var r := RowOf(ChoreRound(plan, freshRound));
    if ForeignRound(rows, plan) {
      var i :| 0 <= i < |rows| && rows[i].kind == RoundRow && rows[i].scope == plan && rows[i].number == Some(1)
               && rows[i].code != CHORE_ROUND;
      assert Clash(rows[i], r);
    }
    if Clashes(rows, r) {
      var i :| 0 <= i < |rows| && Clash(rows[i], r);
      assert rows[i].code != CHORE_ROUND;
    }
  }
}
