/** The autonomy policy table: upsert by scope key, resolution by specificity, the circuit breaker. */
module Autonomy {
  import opened Wrappers

  datatype Mode = L3 | L4 | L5 {
    function Rank(): nat {
      match this case L3 => 0 case L4 => 1 case L5 => 2
    }

    /** At least as strict as `floor`. */
    predicate Satisfies(floor: Mode) {
      Rank() <= floor.Rank()
    }
  }

  datatype ScopeKind = Plan | DecisionKind | PatternKind | Global

  datatype Policy = Policy(
    id: string, projectId: string, planId: Option<string>, scopeKind: ScopeKind,
    decisionKind: Option<string>, patternKind: Option<string>, mode: Mode,
    l5Threshold: int, depthCap: int, retryCap: int,
    singleSession: bool, externalSurface: bool, timeoutMs: Option<int>, forced: bool,
    setAt: int, setBy: string, reason: Option<string>, createdAt: int, updatedAt: int)

  /** What the unique index compares: absent and empty are the same. */
  datatype Key = Key(projectId: string, scopeKind: ScopeKind, planId: string, decisionKind: string, patternKind: string)

  datatype Error = BadScope | GateBlocked | BadCap | CheckFailed | NoParent

  /** Rows of other tables that foreign keys refer to. */
  datatype Parents = Parents(projects: set<string>, plans: set<string>)

  const DEFAULT_CAP := 3

  function KeyOf(p: Policy): Key {
    Key(p.projectId, p.scopeKind, p.planId.GetOr(""), p.decisionKind.GetOr(""), p.patternKind.GetOr(""))
  }

  predicate IsPatternKind(kind: string) {
    kind in ["workflow", "graph", "swarm", "agents-as-tools", "direct"]
  }

  predicate ScopeOk(p: Policy) {
    match p.scopeKind
    case Plan => p.planId.Some? && p.decisionKind.None? && p.patternKind.None?
    case DecisionKind => p.decisionKind.Some? && p.patternKind.None?
    case PatternKind =>
      p.patternKind.Some? && p.planId.None? && p.decisionKind.None? && IsPatternKind(p.patternKind.value)
    case Global => p.planId.None? && p.decisionKind.None? && p.patternKind.None?
  }

  predicate IsForcedL4(kind: string) {
    kind in ["architecture", "schema", "naming-canonical"]
  }

  function FloorForKind(kind: string): Mode {
    if IsForcedL4(kind) then L4 else L3
  }

  predicate ModeOk(p: Policy) {
    p.scopeKind.DecisionKind? && p.decisionKind.Some? ==> p.mode.Satisfies(FloorForKind(p.decisionKind.value))
  }

  predicate CapOk(p: Policy) {
    1 <= p.retryCap <= 100
  }

  predicate ChecksOk(p: Policy) {
    0 <= p.l5Threshold <= 10 && 1 <= p.depthCap <= 10
  }

  // ── rows ───────────────────────────────────────────────────────────────

  function Lookup(rows: seq<Policy>, k: Key): Option<Policy> {
    if rows == [] then None
    else if KeyOf(rows[0]) == k then Some(rows[0])
    else Lookup(rows[1..], k)
  }

  /** What `DO UPDATE` leaves: identity and creation time of the old row, the rest of the new one. */
  function Merge(old_: Policy, new_: Policy): Policy {
    old_.(mode := new_.mode, l5Threshold := new_.l5Threshold, depthCap := new_.depthCap, retryCap := new_.retryCap,
          singleSession := new_.singleSession, externalSurface := new_.externalSurface, timeoutMs := new_.timeoutMs,
          forced := new_.forced, setAt := new_.setAt, setBy := new_.setBy, reason := new_.reason,
          updatedAt := new_.updatedAt)
  }

  function Replaced(rows: seq<Policy>, p: Policy): seq<Policy> {
    if rows == [] then []
    else if KeyOf(rows[0]) == KeyOf(p) then [Merge(rows[0], p)] + rows[1..]
    else [rows[0]] + Replaced(rows[1..], p)
  }

  /** Why an upsert is refused, given whether its key is already there. The parents of a row are looked at only when a row
      is inserted. */
  function Refusal(p: Policy, present: bool, parents: Parents): Option<Error> {
    if !ScopeOk(p) then Some(BadScope)
    else if !ModeOk(p) then Some(GateBlocked)
    else if !CapOk(p) then Some(BadCap)
    else if !ChecksOk(p) then Some(CheckFailed)
    else if !present && !(p.projectId in parents.projects && (p.planId.Some? ==> p.planId.value in parents.plans)) then
      Some(NoParent)
    else None
  }

  function Upserted(rows: seq<Policy>, p: Policy, parents: Parents): seq<Policy> {
    var present := Lookup(rows, KeyOf(p)).Some?;
    if Refusal(p, present, parents).Some? then rows
    else if present then Replaced(rows, p)
    else rows + [p]
  }

  predicate IsLoose(p: Policy, project: string) {
    p.projectId == project && p.mode != L3
  }

  function Demote(p: Policy, project: string, actor: string, reason: string, at: int): Policy {
    if IsLoose(p, project) then
      p.(mode := L3, setAt := at, setBy := actor, reason := Some(reason), updatedAt := at)
    else p
  }

  function Broken(rows: seq<Policy>, project: string, actor: string, reason: string, at: int): (r: seq<Policy>)
    ensures |r| == |rows|
    ensures forall i :: 0 <= i < |rows| ==> r[i] == Demote(rows[i], project, actor, reason, at)
  {
    if rows == [] then [] else [Demote(rows[0], project, actor, reason, at)] + Broken(rows[1..], project, actor, reason, at)
  }

  function CountLoose(rows: seq<Policy>, project: string): nat {
    if rows == [] then 0
    else (if IsLoose(rows[0], project) then 1 else 0) + CountLoose(rows[1..], project)
  }

  /** The scopes a query looks at, most specific first. */
  function Candidates(project: string, plan: Option<string>, decision: Option<string>, pattern: Option<string>): seq<Key> {
    (if plan.Some? then [Key(project, Plan, plan.value, "", "")] else [])
    + (if pattern.Some? then [Key(project, PatternKind, "", "", pattern.value)] else [])
    + (if decision.Some? then [Key(project, DecisionKind, "", decision.value, "")] else [])
    + [Key(project, Global, "", "", "")]
  }

  function FirstHit(rows: seq<Policy>, keys: seq<Key>): Option<Policy> {
    if keys == [] then None
    else match Lookup(rows, keys[0])
      case Some(p) => Some(p)
      case None => FirstHit(rows, keys[1..])
  }

  lemma OneCandidate(rows: seq<Policy>, k: Key)
    ensures FirstHit(rows, [k]) == Lookup(rows, k)
  {
    assert [k][1..] == [];
  }

  /** Cap of the row whose scope fields equal the request's exactly. */
  function ExactCap(rows: seq<Policy>, p: Policy): Option<int> {
    if rows == [] then None
    else if && rows[0].projectId == p.projectId && rows[0].scopeKind == p.scopeKind && rows[0].planId == p.planId
            && rows[0].decisionKind == p.decisionKind && rows[0].patternKind == p.patternKind
    then Some(rows[0].retryCap)
    else ExactCap(rows[1..], p)
  }

  /** A request: the policy to write, whose cap counts only when it was given. */
  datatype Request = Request(policy: Policy, capGiven: bool)

  function WithCap(rows: seq<Policy>, r: Request): Policy {
    if r.capGiven then r.policy else r.policy.(retryCap := ExactCap(rows, r.policy).GetOr(DEFAULT_CAP))
  }

  // ── the table ──────────────────────────────────────────────────────────

  class PolicyTable {
    var rows: seq<Policy>

    constructor ()
      ensures rows == []
    {
      rows := [];
    }

    /** `autonomy_policy::upsert`. */
    method Upsert(p: Policy, parents: Parents) returns (error: Option<Error>)
      modifies this
      ensures rows == Upserted(old(rows), p, parents)
      ensures error == Refusal(p, Lookup(old(rows), KeyOf(p)).Some?, parents)
    {
      if !ScopeOk(p) { return Some(BadScope); }
      if !ModeOk(p) { return Some(GateBlocked); }
      if !CapOk(p) { return Some(BadCap); }
      if !ChecksOk(p) { return Some(CheckFailed); }
      if Lookup(rows, KeyOf(p)).Some? {
        rows := Replaced(rows, p);
        return None;
      }
      if p.projectId !in parents.projects || (p.planId.Some? && p.planId.value !in parents.plans) {
        return Some(NoParent);
      }
      rows := rows + [p];
      return None;
    }

    /** `resolve`: three optional look-ups, then the global one. */
    method Resolve(project: string, plan: Option<string>, decision: Option<string>, pattern: Option<string>)
      returns (policy: Option<Policy>)
      ensures policy == FirstHit(rows, Candidates(project, plan, decision, pattern))
    {
      var keys := Candidates(project, plan, decision, pattern);
      var i := 0;
      if plan.Some? {
        assert keys[i..][0] == keys[i] && keys[i..][1..] == keys[i + 1..];
        policy := Lookup(rows, Key(project, Plan, plan.value, "", ""));
        if policy.Some? { return; }
        i := i + 1;
      }
      assert FirstHit(rows, keys) == FirstHit(rows, keys[i..]);
      if pattern.Some? {
        assert keys[i..][0] == keys[i] && keys[i..][1..] == keys[i + 1..];
        policy := Lookup(rows, Key(project, PatternKind, "", "", pattern.value));
        if policy.Some? { return; }
        i := i + 1;
      }
      assert FirstHit(rows, keys) == FirstHit(rows, keys[i..]);
      if decision.Some? {
        assert keys[i..][0] == keys[i] && keys[i..][1..] == keys[i + 1..];
        policy := Lookup(rows, Key(project, DecisionKind, "", decision.value, ""));
        if policy.Some? { return; }
        i := i + 1;
      }
      assert FirstHit(rows, keys) == FirstHit(rows, keys[i..]);
      policy := Lookup(rows, Key(project, Global, "", "", ""));
      OneCandidate(rows, Key(project, Global, "", "", ""));
      assert keys[i..] == [Key(project, Global, "", "", "")];
    }

    /** The router's upsert: an omitted cap is read from the existing row, and the answer is what the scope resolves to. */
    method Post(r: Request, parents: Parents) returns (answer: Result<Option<Policy>, Error>)
      modifies this
      ensures var p := WithCap(old(rows), r);
              && rows == Upserted(old(rows), p, parents)
              && answer == match Refusal(p, Lookup(old(rows), KeyOf(p)).Some?, parents)
                 case Some(e) => Err(e)
                 case None => Ok(FirstHit(rows, Candidates(p.projectId, p.planId, p.decisionKind, p.patternKind)))
    {
      var p := r.policy;
      if !r.capGiven {
        var cap := FindCap(r.policy);
        p := p.(retryCap := cap.GetOr(DEFAULT_CAP));
      }
      var error := Upsert(p, parents);
      if error.Some? { return Err(error.value); }
      var answerRow := Resolve(p.projectId, p.planId, p.decisionKind, p.patternKind);
      return Ok(answerRow);
    }

    /** The router's search of the existing row. */
    method FindCap(p: Policy) returns (cap: Option<int>)
      ensures cap == ExactCap(rows, p)
    {
      var i := 0;
      while i < |rows|
        invariant 0 <= i <= |rows|
        invariant ExactCap(rows[i..], p) == ExactCap(rows, p)
      {
        var row := rows[i];
        assert rows[i..][1..] == rows[i + 1..];
        if && row.projectId == p.projectId && row.scopeKind == p.scopeKind && row.planId == p.planId
           && row.decisionKind == p.decisionKind && row.patternKind == p.patternKind {
          return Some(row.retryCap);
        }
        i := i + 1;
      }
      return None;
    }

    /** The circuit breaker: one update statement, and the number of rows it changed. */
    method CircuitBreaker(project: string, actor: string, reason: string, at: int) returns (demoted: nat)
      modifies this
      ensures rows == Broken(old(rows), project, actor, reason, at)
      ensures demoted == CountLoose(old(rows), project)
    {
      demoted := CountLoose(rows, project);
      rows := Broken(rows, project, actor, reason, at);
    }
  }

  // ── what every operation keeps ─────────────────────────────────────────

  predicate RowOk(p: Policy) {
    ScopeOk(p) && ModeOk(p) && CapOk(p) && ChecksOk(p) && p.planId != Some("")
  }

  ghost predicate Inv(rows: seq<Policy>) {
    && (forall i, j :: 0 <= i < j < |rows| ==> KeyOf(rows[i]) != KeyOf(rows[j]))
    && (forall i :: 0 <= i < |rows| ==> RowOk(rows[i]))
  }

  lemma {:induction false} LookupIsRow(rows: seq<Policy>, k: Key)
    ensures Lookup(rows, k).Some? ==> exists i :: 0 <= i < |rows| && rows[i] == Lookup(rows, k).value && KeyOf(rows[i]) == k
    ensures Lookup(rows, k).None? ==> forall i :: 0 <= i < |rows| ==> KeyOf(rows[i]) != k
  {
    if rows != [] && KeyOf(rows[0]) != k {
      LookupIsRow(rows[1..], k);
      if Lookup(rows[1..], k).Some? {
        var i :| 0 <= i < |rows[1..]| && rows[1..][i] == Lookup(rows, k).value && KeyOf(rows[1..][i]) == k;
        assert rows[i + 1] == Lookup(rows, k).value;
      }
    } else if rows != [] {
      assert rows[0] == Lookup(rows, k).value;
    }
  }

  lemma {:induction false} ReplacedKeeps(rows: seq<Policy>, p: Policy)
    ensures |Replaced(rows, p)| == |rows|
    ensures forall i :: 0 <= i < |rows| ==> KeyOf(Replaced(rows, p)[i]) == KeyOf(rows[i])
    ensures forall i :: 0 <= i < |rows| ==>
              Replaced(rows, p)[i] == rows[i] || (KeyOf(rows[i]) == KeyOf(p) && Replaced(rows, p)[i] == Merge(rows[i], p))
  {
    if rows != [] && KeyOf(rows[0]) != KeyOf(p) { ReplacedKeeps(rows[1..], p); }
  }

  lemma MergedIsOk(a: Policy, p: Policy)
    requires RowOk(a) && KeyOf(a) == KeyOf(p) && ScopeOk(p) && ModeOk(p) && CapOk(p) && ChecksOk(p)
    ensures RowOk(Merge(a, p))
  {
  }

  /** Keys stay unique, and every row keeps its scope rule, its kind floor and its ranges. */
  lemma UpsertKeepsInv(rows: seq<Policy>, p: Policy, parents: Parents)
    requires Inv(rows) && "" !in parents.plans
    ensures Inv(Upserted(rows, p, parents))
  {
    LookupIsRow(rows, KeyOf(p));
    ReplacedKeeps(rows, p);
    hide ScopeOk, ModeOk, CapOk, ChecksOk;
    if Refusal(p, Lookup(rows, KeyOf(p)).Some?, parents).None? && Lookup(rows, KeyOf(p)).Some? {
      forall i | 0 <= i < |rows| && KeyOf(rows[i]) == KeyOf(p) ensures RowOk(Merge(rows[i], p)) {
        MergedIsOk(rows[i], p);
      }
    }
  }

  lemma BreakerKeepsInv(rows: seq<Policy>, project: string, actor: string, reason: string, at: int)
    requires Inv(rows)
    ensures Inv(Broken(rows, project, actor, reason, at))
  {
    var r := Broken(rows, project, actor, reason, at);
    forall i | 0 <= i < |rows| ensures RowOk(r[i]) && KeyOf(r[i]) == KeyOf(rows[i]) {
      assert RowOk(rows[i]);
    }
  }

  // ── the table is one cell per key ──────────────────────────────────────

  /** A write is given the rows its foreign keys can refer to at that moment. */
  datatype Op =
    | Set(request: Request, parents: Parents)
    | Break(project: string, actor: string, reason: string, at: int)

  /** No plan has an empty id. */
  predicate OpOk(op: Op) {
    op.Set? ==> "" !in op.parents.plans
  }

  function Apply(rows: seq<Policy>, op: Op): seq<Policy> {
    match op
    case Set(r, parents) => Upserted(rows, WithCap(rows, r), parents)
    case Break(project, actor, reason, at) => Broken(rows, project, actor, reason, at)
  }

  function Run(ops: seq<Op>): seq<Policy> {
    if ops == [] then [] else Apply(Run(ops[..|ops| - 1]), ops[|ops| - 1])
  }

  /** What one operation does to the row of one key, looking at no other row. */
  function Cell(cell: Option<Policy>, k: Key, op: Op): Option<Policy> {
    match op
    case Set(r, parents) =>
      if KeyOf(r.policy) != k then cell
      else
        var kept := if cell.Some? && cell.value.planId == r.policy.planId && cell.value.decisionKind == r.policy.decisionKind
                       && cell.value.patternKind == r.policy.patternKind then cell.value.retryCap else DEFAULT_CAP;
        var p := if r.capGiven then r.policy else r.policy.(retryCap := kept);
        if Refusal(p, cell.Some?, parents).Some? then cell
        else if cell.Some? then Some(Merge(cell.value, p))
        else Some(p)
    case Break(project, actor, reason, at) =>
      if cell.Some? then Some(Demote(cell.value, project, actor, reason, at)) else None
  }

  function Replay(ops: seq<Op>, k: Key): Option<Policy> {
    if ops == [] then None else Cell(Replay(ops[..|ops| - 1], k), k, ops[|ops| - 1])
  }

  lemma {:induction false} LookupBroken(rows: seq<Policy>, k: Key, project: string, actor: string, reason: string, at: int)
    ensures Lookup(Broken(rows, project, actor, reason, at), k)
            == match Lookup(rows, k) case None => None case Some(p) => Some(Demote(p, project, actor, reason, at))
  {
    if rows != [] { LookupBroken(rows[1..], k, project, actor, reason, at); }
  }

  lemma {:induction false} LookupReplaced(rows: seq<Policy>, p: Policy, k: Key)
    ensures Lookup(Replaced(rows, p), k)
            == match Lookup(rows, k) case None => None case Some(q) => Some(if KeyOf(p) == k then Merge(q, p) else q)
  {
    if rows != [] && KeyOf(rows[0]) != KeyOf(p) { LookupReplaced(rows[1..], p, k); }
  }

  lemma {:induction false} LookupAppended(rows: seq<Policy>, p: Policy, k: Key)
    ensures Lookup(rows + [p], k)
            == match Lookup(rows, k) case Some(q) => Some(q) case None => if KeyOf(p) == k then Some(p) else None
  {
    if rows == [] {
      assert [] + [p] == [p];
    } else {
      assert (rows + [p])[1..] == rows[1..] + [p];
      LookupAppended(rows[1..], p, k);
    }
  }

  lemma LookupUpserted(rows: seq<Policy>, p: Policy, parents: Parents, k: Key)
    ensures Lookup(Upserted(rows, p, parents), k)
            == if KeyOf(p) != k || Refusal(p, Lookup(rows, k).Some?, parents).Some? then Lookup(rows, k)
               else match Lookup(rows, k) case Some(q) => Some(Merge(q, p)) case None => Some(p)
  {
    hide Refusal, Merge;
    LookupReplaced(rows, p, k);
    LookupAppended(rows, p, k);
  }

  lemma {:induction false} ExactCapIsLookup(rows: seq<Policy>, p: Policy)
    requires forall i, j :: 0 <= i < j < |rows| ==> KeyOf(rows[i]) != KeyOf(rows[j])
    ensures ExactCap(rows, p)
            == match Lookup(rows, KeyOf(p))
               case None => None
               case Some(q) =>
                 if q.planId == p.planId && q.decisionKind == p.decisionKind && q.patternKind == p.patternKind
                 then Some(q.retryCap) else None
  {
    if rows != [] {
      ExactCapIsLookup(rows[1..], p);
      if KeyOf(rows[0]) == KeyOf(p) {
        LookupIsRow(rows[1..], KeyOf(p));
      }
    }
  }

  lemma ApplyKeepsInv(rows: seq<Policy>, op: Op)
    requires Inv(rows) && OpOk(op)
    ensures Inv(Apply(rows, op))
  {
    match op
    case Set(r, parents) => UpsertKeepsInv(rows, WithCap(rows, r), parents);
    case Break(project, actor, reason, at) => BreakerKeepsInv(rows, project, actor, reason, at);
  }

  lemma {:induction false} RunKeepsInv(ops: seq<Op>)
    requires forall i :: 0 <= i < |ops| ==> OpOk(ops[i])
    ensures Inv(Run(ops))
  {
    if ops != [] {
      RunKeepsInv(ops[..|ops| - 1]);
      hide Inv, Apply;
      ApplyKeepsInv(Run(ops[..|ops| - 1]), ops[|ops| - 1]);
    }
  }

  lemma ApplyIsCell(rows: seq<Policy>, op: Op, k: Key)
    requires Inv(rows)
    ensures Lookup(Apply(rows, op), k) == Cell(Lookup(rows, k), k, op)
  {
    match op
    case Set(r, parents) =>
      hide Refusal, Merge, RowOk, Upserted;
      var p := WithCap(rows, r);
      LookupUpserted(rows, p, parents, k);
      ExactCapIsLookup(rows, r.policy);
    case Break(project, actor, reason, at) => LookupBroken(rows, k, project, actor, reason, at);
  }

  /** After any history, the row of a key is what that key's own writes and the breakers since leave: the last accepted
      write, with the identity of the first, demoted by every later breaker of its project. */
  lemma {:induction false} TableIsReplay(ops: seq<Op>, k: Key)
    requires forall i :: 0 <= i < |ops| ==> OpOk(ops[i])
    ensures Lookup(Run(ops), k) == Replay(ops, k)
  {
    if ops != [] {
      TableIsReplay(ops[..|ops| - 1], k);
      RunKeepsInv(ops[..|ops| - 1]);
      hide Apply, Cell, Inv;
      ApplyIsCell(Run(ops[..|ops| - 1]), ops[|ops| - 1], k);
    }
  }

  // ── resolution ─────────────────────────────────────────────────────────

  /** The answer is the row of the first candidate scope that has one: no more specific scope is present. */
  lemma {:induction false} ResolvesToMostSpecific(rows: seq<Policy>, keys: seq<Key>)
    ensures FirstHit(rows, keys).Some? <==> exists i :: 0 <= i < |keys| && Lookup(rows, keys[i]).Some?
    ensures FirstHit(rows, keys).Some? ==>
              exists i :: 0 <= i < |keys| && Lookup(rows, keys[i]) == FirstHit(rows, keys)
                          && forall j :: 0 <= j < i ==> Lookup(rows, keys[j]).None?
  {
    if keys != [] {
      ResolvesToMostSpecific(rows, keys[1..]);
      if Lookup(rows, keys[0]).None? {
        if FirstHit(rows, keys[1..]).Some? {
          var i :| 0 <= i < |keys[1..]| && Lookup(rows, keys[1..][i]) == FirstHit(rows, keys[1..])
                   && forall j :: 0 <= j < i ==> Lookup(rows, keys[1..][j]).None?;
          assert Lookup(rows, keys[i + 1]) == FirstHit(rows, keys);
          forall j | 0 <= j < i + 1 ensures Lookup(rows, keys[j]).None? {
            if j > 0 { assert keys[j] == keys[1..][j - 1]; }
          }
        } else {
          forall i | 0 <= i < |keys| ensures Lookup(rows, keys[i]).None? {
            if i > 0 { assert keys[i] == keys[1..][i - 1]; }
          }
        }
      } else {
        assert Lookup(rows, keys[0]) == FirstHit(rows, keys);
      }
    }
  }

  lemma HitHasCandidateKey(rows: seq<Policy>, keys: seq<Key>)
    requires FirstHit(rows, keys).Some?
    ensures KeyOf(FirstHit(rows, keys).value) in keys
    ensures exists r :: 0 <= r < |rows| && rows[r] == FirstHit(rows, keys).value
  {
    ResolvesToMostSpecific(rows, keys);
    var i :| 0 <= i < |keys| && Lookup(rows, keys[i]) == FirstHit(rows, keys);
    LookupIsRow(rows, keys[i]);
  }

  /** A decision-kind row that carries a plan is never the answer, whatever is asked. */
  lemma PlannedDecisionRowsAreNeverResolved(rows: seq<Policy>, project: string, plan: Option<string>,
                                            decision: Option<string>, pattern: Option<string>, row: Policy)
    requires FirstHit(rows, Candidates(project, plan, decision, pattern)) == Some(row)
    requires row.scopeKind.DecisionKind?
    ensures row.planId.GetOr("") == ""
  {
    HitHasCandidateKey(rows, Candidates(project, plan, decision, pattern));
  }

  // ── the circuit breaker ────────────────────────────────────────────────

  /** The operation writes a policy of the project, and the write is accepted. */
  predicate Writes(rows: seq<Policy>, op: Op, project: string) {
    && op.Set? && op.request.policy.projectId == project
    && Refusal(WithCap(rows, op.request), Lookup(rows, KeyOf(op.request.policy)).Some?, op.parents).None?
  }

  predicate NeverWrite(rows: seq<Policy>, ops: seq<Op>, project: string)
    decreases |ops|
  {
    ops == [] || (!Writes(rows, ops[0], project) && NeverWrite(Apply(rows, ops[0]), ops[1..], project))
  }

  /** Every row of the project asks for confirmation. */
  ghost predicate AllStrict(rows: seq<Policy>, project: string) {
    forall i :: 0 <= i < |rows| && rows[i].projectId == project ==> rows[i].mode == L3
  }

  lemma StrictStays(rows: seq<Policy>, op: Op, project: string)
    requires AllStrict(rows, project) && !Writes(rows, op, project)
    ensures AllStrict(Apply(rows, op), project)
  {
    hide Refusal;
    if op.Set? { ReplacedKeeps(rows, WithCap(rows, op.request)); }
  }

  lemma {:induction false} StrictUntilUpsert(rows: seq<Policy>, ops: seq<Op>, project: string)
    requires AllStrict(rows, project) && NeverWrite(rows, ops, project)
    ensures AllStrict(After(rows, ops), project)
    decreases |ops|
  {
    if ops != [] {
      StrictStays(rows, ops[0], project);
      hide AllStrict, Apply, Writes;
      StrictUntilUpsert(Apply(rows, ops[0]), ops[1..], project);
    }
  }

  function After(rows: seq<Policy>, ops: seq<Op>): seq<Policy>
    decreases |ops|
  {
    if ops == [] then rows else After(Apply(rows, ops[0]), ops[1..])
  }

  lemma HitHasProject(rows: seq<Policy>, project: string, plan: Option<string>, decision: Option<string>, pattern: Option<string>)
    ensures var hit := FirstHit(rows, Candidates(project, plan, decision, pattern));
            hit.Some? ==> hit.value.projectId == project
                          && exists r :: 0 <= r < |rows| && rows[r] == hit.value
  {
    var keys := Candidates(project, plan, decision, pattern);
    if FirstHit(rows, keys).Some? {
      HitHasCandidateKey(rows, keys);
    }
  }

  /** After a breaker, every query for its project answers L3 or nothing until a write of a policy of that project is
      accepted. */
  lemma BreakerHoldsUntilUpsert(rows: seq<Policy>, project: string, actor: string, reason: string, at: int, later: seq<Op>,
                                plan: Option<string>, decision: Option<string>, pattern: Option<string>)
    requires NeverWrite(Broken(rows, project, actor, reason, at), later, project)
    ensures var now := After(Broken(rows, project, actor, reason, at), later);
            var hit := FirstHit(now, Candidates(project, plan, decision, pattern));
            hit.None? || hit.value.mode == L3
  {
    var broken := Broken(rows, project, actor, reason, at);
    assert AllStrict(broken, project);
    StrictUntilUpsert(broken, later, project);
    HitHasProject(After(broken, later), project, plan, decision, pattern);
  }

  /** A breaker changes no answer about another project, and reports exactly the rows whose mode it changed. */
  lemma BreakerIsLocal(rows: seq<Policy>, project: string, actor: string, reason: string, at: int,
                       other: string, plan: Option<string>, decision: Option<string>, pattern: Option<string>)
    ensures other != project ==>
              FirstHit(Broken(rows, project, actor, reason, at), Candidates(other, plan, decision, pattern))
              == FirstHit(rows, Candidates(other, plan, decision, pattern))
    ensures CountLoose(rows, project)
            == |set i | 0 <= i < |rows| && rows[i].mode != Broken(rows, project, actor, reason, at)[i].mode|
  {
    var broken := Broken(rows, project, actor, reason, at);
    if other != project {
      SameHits(rows, broken, project, actor, reason, at, Candidates(other, plan, decision, pattern));
    }
    CountIsChanged(rows, broken, project, |rows|);
    assert rows[..|rows|] == rows;
  }

  lemma {:induction false} SameHits(rows: seq<Policy>, broken: seq<Policy>, project: string, actor: string, reason: string,
                                    at: int, keys: seq<Key>)
    requires broken == Broken(rows, project, actor, reason, at)
    requires forall i :: 0 <= i < |keys| ==> keys[i].projectId != project
    ensures FirstHit(broken, keys) == FirstHit(rows, keys)
  {
    if keys != [] {
      LookupBroken(rows, keys[0], project, actor, reason, at);
      LookupIsRow(rows, keys[0]);
      SameHits(rows, broken, project, actor, reason, at, keys[1..]);
    }
  }

  lemma ChangedSnoc(rows: seq<Policy>, broken: seq<Policy>, n: nat)
    requires n < |rows| == |broken|
    ensures |set i | 0 <= i < n + 1 && rows[i].mode != broken[i].mode|
            == |set i | 0 <= i < n && rows[i].mode != broken[i].mode| + if rows[n].mode != broken[n].mode then 1 else 0
  {
    var fewer := set i | 0 <= i < n && rows[i].mode != broken[i].mode;
    var more := set i | 0 <= i < n + 1 && rows[i].mode != broken[i].mode;
    assert more == if rows[n].mode != broken[n].mode then fewer + {n} else fewer;
  }

  lemma {:induction false} CountIsChanged(rows: seq<Policy>, broken: seq<Policy>, project: string, n: nat)
    requires n <= |rows| == |broken|
    requires forall i :: 0 <= i < |rows| ==> (rows[i].mode != broken[i].mode <==> IsLoose(rows[i], project))
    ensures CountLoose(rows[..n], project) == |set i | 0 <= i < n && rows[i].mode != broken[i].mode|
  {
    if n > 0 {
      hide CountLoose, IsLoose;
      CountIsChanged(rows, broken, project, n - 1);
      CountLooseSnoc(rows[..n - 1], rows[n - 1], project);
      ChangedSnoc(rows, broken, n - 1);
      assert rows[..n] == rows[..n - 1] + [rows[n - 1]];
    }
  }

  lemma {:induction false} CountLooseSnoc(rows: seq<Policy>, p: Policy, project: string)
    ensures CountLoose(rows + [p], project)
            == CountLoose(rows, project) + if IsLoose(p, project) then 1 else 0
  {
    if rows == [] {
      assert rows + [p] == [p];
    } else {
      assert (rows + [p])[1..] == rows[1..] + [p];
      CountLooseSnoc(rows[1..], p, project);
    }
  }

  // ── floors, caps and the answer of an upsert ───────────────────────────

  /** A decision-kind policy is accepted by its floor exactly when it is L3, or L4 for a kind forced to L4. */
  lemma FloorAdmits(p: Policy)
    requires p.scopeKind.DecisionKind? && p.decisionKind.Some?
    ensures ModeOk(p) <==> p.mode == L3 || (p.mode == L4 && IsForcedL4(p.decisionKind.value))
  {
  }

  /** An omitted cap keeps the cap of the row (the default without one), except when the request names the empty plan
      and the row was tuned: then the row is rewritten with the default cap. */
  lemma OmittedCapKeepsCap(rows: seq<Policy>, r: Request, parents: Parents)
    requires Inv(rows) && "" !in parents.plans && !r.capGiven
    requires Refusal(WithCap(rows, r), Lookup(rows, KeyOf(r.policy)).Some?, parents).None?
    ensures var before := Lookup(rows, KeyOf(r.policy));
            var after := Lookup(Upserted(rows, WithCap(rows, r), parents), KeyOf(r.policy));
            after.Some?
            && (after.value.retryCap == (if before.Some? then before.value.retryCap else DEFAULT_CAP)
                <==> before.None? || before.value.retryCap == DEFAULT_CAP || r.policy.planId != Some(""))
  {
    var k := KeyOf(r.policy);
    var p := WithCap(rows, r);
    LookupUpserted(rows, p, parents, k);
    ExactCapIsLookup(rows, r.policy);
    LookupIsRow(rows, k);
    if Lookup(rows, k).Some? {
      SameScopeFields(Lookup(rows, k).value, r.policy);
    }
  }

  lemma SameScopeFields(row: Policy, p: Policy)
    requires RowOk(row) && ScopeOk(p) && KeyOf(row) == KeyOf(p)
    ensures row.decisionKind == p.decisionKind && row.patternKind == p.patternKind
    ensures row.planId == p.planId <==> p.planId != Some("")
  {
  }

  /** The row that the counterexample above rewrites. */
  lemma EmptyPlanResetsCap(row: Policy, parents: Parents)
    requires RowOk(row) && row.scopeKind.DecisionKind? && row.planId.None? && row.retryCap != DEFAULT_CAP
    ensures var r := Request(row.(planId := Some("")), false);
            var p := WithCap([row], r);
            Refusal(p, true, parents).None? && Upserted([row], p, parents) == [row.(retryCap := DEFAULT_CAP)]
  {
    var r := Request(row.(planId := Some("")), false);
    var p := WithCap([row], r);
    assert [row][1..] == [];
    assert ExactCap([row], r.policy) == None;
    assert KeyOf(p) == KeyOf(row);
    assert Lookup([row], KeyOf(p)) == Some(row);
  }

  /** Where the key of an admitted policy stands among the keys its own fields ask for. */
  lemma WrittenKey(p: Policy, isKnown: bool, parents: Parents)
    requires Refusal(p, isKnown, parents).None? && "" !in parents.plans
    ensures var k, keys := KeyOf(p), Candidates(p.projectId, p.planId, p.decisionKind, p.patternKind);
            && keys != []
            && (if p.scopeKind.DecisionKind? && p.planId.GetOr("") != "" then k !in keys
                else if p.planId == Some("") then
                  keys[0] == Key(p.projectId, Plan, "", "", "")
                  && (if keys[0] == k then isKnown else |keys| > 1 && keys[1] == k)
                else keys[0] == k)
  {
  }

  /** The answer of an accepted upsert is the row it wrote, except for a decision-kind policy of a plan. */
  lemma AnswerIsWrittenRow(rows: seq<Policy>, p: Policy, parents: Parents)
    requires Inv(rows) && "" !in parents.plans
    requires Refusal(p, Lookup(rows, KeyOf(p)).Some?, parents).None?
    ensures var now := Upserted(rows, p, parents);
            var answer := FirstHit(now, Candidates(p.projectId, p.planId, p.decisionKind, p.patternKind));
            Lookup(now, KeyOf(p)).Some?
            && (answer == Lookup(now, KeyOf(p)) <==> !(p.scopeKind.DecisionKind? && p.planId.GetOr("") != ""))
  {
    hide Upserted, Inv, Refusal, Candidates;
    var now := Upserted(rows, p, parents);
    var k := KeyOf(p);
    LookupUpserted(rows, p, parents, k);
    UpsertKeepsInv(rows, p, parents);
    WrittenKey(p, Lookup(rows, k).Some?, parents);
    var keys := Candidates(p.projectId, p.planId, p.decisionKind, p.patternKind);
    if p.scopeKind.DecisionKind? && p.planId.GetOr("") != "" {
      if FirstHit(now, keys).Some? {
        HitHasCandidateKey(now, keys);
      }
      LookupIsRow(now, k);
    } else if p.planId == Some("") {
      NoEmptyPlanRow(rows, p.projectId);
      NoEmptyPlanRow(now, p.projectId);
      assert keys[0] != k;
      assert keys[1..][0] == k;
      assert FirstHit(now, keys) == FirstHit(now, keys[1..]);
    }
  }

  lemma NoEmptyPlanRow(rows: seq<Policy>, project: string)
    requires Inv(rows)
    ensures Lookup(rows, Key(project, Plan, "", "", "")).None?
  {
    LookupIsRow(rows, Key(project, Plan, "", "", ""));
  }

  // ── the retry cap of a plan ────────────────────────────────────────────

  function PlanKey(project: string, plan: string): Key {
    Key(project, Plan, plan, "", "")
  }

  function GlobalKey(project: string): Key {
    Key(project, Global, "", "", "")
  }

  /** The cap of the plan's row, else of the project's global row, else the default. */
  function PlanCap(rows: seq<Policy>, project: string, plan: string): int {
    match FirstHit(rows, Candidates(project, Some(plan), None, None))
    case Some(p) => p.retryCap
    case None => DEFAULT_CAP
  }

  /** The request writes the row the plan's cap is read from: the plan's own, or the project's global one while the plan has
      none. */
  predicate Governs(rows: seq<Policy>, r: Request, project: string, plan: string) {
    || KeyOf(r.policy) == PlanKey(project, plan)
    || (KeyOf(r.policy) == GlobalKey(project) && Lookup(rows, PlanKey(project, plan)).None?)
  }

  predicate IsAccepted(rows: seq<Policy>, r: Request, parents: Parents) {
    Refusal(WithCap(rows, r), Lookup(rows, KeyOf(r.policy)).Some?, parents).None?
  }

  /** The cap a request writes: the one it gives, else that of the row it replaces, else the default. */
  function WrittenCap(rows: seq<Policy>, r: Request): int {
    if r.capGiven then r.policy.retryCap
    else match Lookup(rows, KeyOf(r.policy)) case Some(q) => q.retryCap case None => DEFAULT_CAP
  }

  lemma PlanCapByKeys(rows: seq<Policy>, project: string, plan: string)
    ensures PlanCap(rows, project, plan)
            == match Lookup(rows, PlanKey(project, plan))
               case Some(p) => p.retryCap
               case None => match Lookup(rows, GlobalKey(project)) case Some(p) => p.retryCap case None => DEFAULT_CAP
  {
    var keys := Candidates(project, Some(plan), None, None);
    assert keys == [PlanKey(project, plan), GlobalKey(project)];
    assert keys[1..] == [GlobalKey(project)];
    OneCandidate(rows, GlobalKey(project));
  }

  /** A write to a plan's row or a global one names its scope exactly, so an omitted cap is that of the row itself. */
  lemma WrittenCapIs(rows: seq<Policy>, r: Request, parents: Parents, project: string, plan: string)
    requires Inv(rows) && "" !in parents.plans
    requires IsAccepted(rows, r, parents) && Governs(rows, r, project, plan)
    ensures WithCap(rows, r).retryCap == WrittenCap(rows, r)
  {
    ExactCapIsLookup(rows, r.policy);
    LookupIsRow(rows, KeyOf(r.policy));
    NoEmptyPlanRow(rows, project);
    var row := Lookup(rows, KeyOf(r.policy));
    if row.Some? {
      SameScopeFields(row.value, r.policy);
      assert RowOk(row.value);
    }
  }

  /** A request changes the cap of a plan exactly when it is accepted, writes the row that governs the plan, and writes
      another cap than the one in force. */
  lemma PlanCapAfterWrite(rows: seq<Policy>, r: Request, parents: Parents, project: string, plan: string)
    requires Inv(rows) && "" !in parents.plans
    ensures PlanCap(Apply(rows, Set(r, parents)), project, plan)
            == if IsAccepted(rows, r, parents) && Governs(rows, r, project, plan) then WrittenCap(rows, r)
               else PlanCap(rows, project, plan)
  {
    var p := WithCap(rows, r);
    hide Upserted, Inv, PlanCap, WrittenCap, Refusal;
    LookupUpserted(rows, p, parents, PlanKey(project, plan));
    LookupUpserted(rows, p, parents, GlobalKey(project));
    PlanCapByKeys(rows, project, plan);
    PlanCapByKeys(Upserted(rows, p, parents), project, plan);
    if IsAccepted(rows, r, parents) && Governs(rows, r, project, plan) {
      WrittenCapIs(rows, r, parents, project, plan);
    }
  }

  /** A circuit breaker changes no cap. */
  lemma PlanCapAfterBreak(rows: seq<Policy>, project: string, actor: string, reason: string, at: int, of: string, plan: string)
    ensures PlanCap(Broken(rows, project, actor, reason, at), of, plan) == PlanCap(rows, of, plan)
  {
    var now := Broken(rows, project, actor, reason, at);
    LookupBroken(rows, PlanKey(of, plan), project, actor, reason, at);
    LookupBroken(rows, GlobalKey(of), project, actor, reason, at);
    hide PlanCap, Broken;
    PlanCapByKeys(rows, of, plan);
    PlanCapByKeys(now, of, plan);
  }
}
