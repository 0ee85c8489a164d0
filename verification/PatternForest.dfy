/** The forest of collaboration patterns: creation, lifecycle, bindings. */
module PatternForest {
  import opened Wrappers
  import Autonomy

  datatype Kind = Workflow | Graph | Swarm | AgentsAsTools | Direct {
    function Name(): string {
      match this
      case Workflow => "workflow"
      case Graph => "graph"
      case Swarm => "swarm"
      case AgentsAsTools => "agents-as-tools"
      case Direct => "direct"
    }
  }

  datatype Scope = OnPlan | OnRequirement | OnScenario | OnTask | OnDecision | OnRound

  datatype Lifecycle = Pending | Active | Converged | Dissensus | Aborted {
    predicate IsTerminal() {
      Converged? || Dissensus? || Aborted?
    }
  }

  datatype Stance = Proposer | DevilAdvocate | SchemaGuardian | PerformanceReviewer | SecurityReviewer | Neutral

  datatype Manifest = Manifest(steps: Option<seq<string>>, reviewers: Option<seq<(string, Stance)>>,
                               fanOut: Option<seq<string>>, peers: Option<seq<(string, string)>>)

  datatype Pattern = Pattern(
    id: string, code: string, planId: string, kind: Kind, appliesTo: Scope, scopeId: string,
    parent: Option<string>, depth: int, lifecycle: Lifecycle, manifest: Manifest,
    decidedAt: Option<int>, reason: Option<string>, updatedAt: int)

  datatype Error = UnknownPlan | UnknownParent | TooDeep | Taken | UnknownPattern | IsTerminal | BadShape
    | NoSuchBinding | OtherPlan | NotActive | OtherScope

  const DEFAULT_DEPTH_CAP := 3

  // ── the shape gate ─────────────────────────────────────────────────────

  /** What the manifest of a kind must hold: for a graph, two reviewers that differ in name or stance. */
  predicate ShapeOk(kind: Kind, m: Manifest) {
    match kind
    case Workflow => |m.steps.GetOr([])| >= 2
    case Graph =>
      exists i, j :: 0 <= i < j < |m.reviewers.GetOr([])| && m.reviewers.GetOr([])[i] != m.reviewers.GetOr([])[j]
    case Swarm => |m.fanOut.GetOr([])| >= 2
    case AgentsAsTools => |m.peers.GetOr([])| >= 1
    case Direct => true
  }

  /** `validate_pattern_shape`: distinct reviewers are counted in a set. */
  method ValidateShape(kind: Kind, m: Manifest) returns (ok: bool)
    ensures ok == ShapeOk(kind, m)
  {
    match kind
    case Workflow => return |m.steps.GetOr([])| >= 2;
    case Graph =>
      var rs := m.reviewers.GetOr([]);
      var seen: set<(string, Stance)> := {};
      var i := 0;
      while i < |rs|
        invariant 0 <= i <= |rs|
        invariant forall r :: r in seen <==> r in rs[..i]
      {
        assert rs[..i + 1] == rs[..i] + [rs[i]];
        seen := seen + {rs[i]};
        i := i + 1;
      }
      assert rs[..|rs|] == rs;
      TwoDistinct(rs, seen);
      return |seen| >= 2;
    case Swarm => return |m.fanOut.GetOr([])| >= 2;
    case AgentsAsTools => return |m.peers.GetOr([])| >= 1;
    case Direct => return true;
  }

  lemma TwoDistinct<T>(rs: seq<T>, seen: set<T>)
    requires forall r :: r in seen <==> r in rs
    ensures |seen| >= 2 <==> exists i, j :: 0 <= i < j < |rs| && rs[i] != rs[j]
  {
    if i, j :| 0 <= i < j < |rs| && rs[i] != rs[j] {
      assert {rs[i], rs[j]} <= seen;
      Fewer({rs[i], rs[j]}, seen);
    } else if rs != [] {
      assert forall i :: 0 <= i < |rs| ==> rs[i] == rs[0];
      assert seen == {rs[0]};
    } else {
      assert seen == {};
    }
  }

  // ── the store ──────────────────────────────────────────────────────────

  /** Patterns in creation order, the policy rows, and the project of each plan. */
  datatype Forest = Forest(patterns: seq<Pattern>, policies: seq<Autonomy.Policy>, plans: map<string, string>)

  function Get(ps: seq<Pattern>, id: string): (r: Option<Pattern>)
    ensures r.Some? ==> r.value in ps && r.value.id == id
  {
    if ps == [] then None else if ps[0].id == id then Some(ps[0]) else Get(ps[1..], id)
  }

  function GetByCode(ps: seq<Pattern>, plan: string, code: string): (r: Option<Pattern>)
    ensures r.Some? ==> r.value in ps && r.value.planId == plan && r.value.code == code
  {
    if ps == [] then None
    else if ps[0].planId == plan && ps[0].code == code then Some(ps[0])
    else GetByCode(ps[1..], plan, code)
  }

  /** The depth cap in force for a kind in a plan. */
  function DepthCap(f: Forest, plan: string, kind: Kind): int
    requires plan in f.plans
  {
    match Autonomy.FirstHit(f.policies, Autonomy.Candidates(f.plans[plan], Some(plan), None, Some(kind.Name())))
    case Some(p) => p.depthCap
    case None => DEFAULT_DEPTH_CAP
  }

  datatype Request = Request(plan: string, code: string, kind: Kind, appliesTo: Scope, scopeId: string,
                             parent: Option<string>, manifest: Manifest)

  /** Depth the new pattern would have, or why there is none. */
  function DepthFor(f: Forest, r: Request): Result<int, Error> {
    if r.plan !in f.plans then Err(UnknownPlan)
    else match r.parent
      case None => Ok(0)
      case Some(p) =>
        match Get(f.patterns, p)
        case None => Err(UnknownParent)
        case Some(parent) => if parent.depth + 1 > DepthCap(f, r.plan, r.kind) then Err(TooDeep) else Ok(parent.depth + 1)
  }

  predicate IsTaken(ps: seq<Pattern>, id: string, plan: string, code: string) {
    Get(ps, id).Some? || GetByCode(ps, plan, code).Some?
  }

  function NewPattern(r: Request, id: string, depth: int, lifecycle: Lifecycle, reason: Option<string>, at: int): Pattern {
    Pattern(id, r.code, r.plan, r.kind, r.appliesTo, r.scopeId, r.parent, depth, lifecycle, r.manifest, None, reason, at)
  }

  /** The sentinel of a plan: an active `direct` root. */
  function SentinelRequest(plan: string, code: string): Request {
    Request(plan, code, Direct, OnPlan, plan, None, Manifest(None, None, None, None))
  }

  function Moved(p: Pattern, to: Lifecycle, reason: Option<string>, at: int): Pattern {
    p.(lifecycle := to, decidedAt := if to.IsTerminal() then Some(at) else p.decidedAt,
       reason := if reason.Some? then reason else p.reason, updatedAt := at)
  }

  function WithMoved(ps: seq<Pattern>, id: string, to: Lifecycle, reason: Option<string>, at: int): (r: seq<Pattern>)
    ensures |r| == |ps|
    ensures forall i :: 0 <= i < |ps| ==> r[i] == if ps[i].id == id then Moved(ps[i], to, reason, at) else ps[i]
  {
    if ps == [] then []
    else [if ps[0].id == id then Moved(ps[0], to, reason, at) else ps[0]] + WithMoved(ps[1..], id, to, reason, at)
  }

  datatype Op =
    | Create(request: Request, id: string, at: int)
    | Sentinel(plan: string, code: string, id: string, at: int)
    | Transition(id: string, to: Lifecycle, reason: Option<string>, at: int)
    | Policy(op: Autonomy.Op)
    | AddPlan(plan: string, project: string)

  /** Why an operation on patterns is refused. */
  function Refusal(f: Forest, op: Op): Option<Error> {
    match op
    case Create(r, id, _) =>
      (match DepthFor(f, r)
       case Err(e) => Some(e)
       case Ok(_) => if IsTaken(f.patterns, id, r.plan, r.code) then Some(Taken) else None)
    case Sentinel(plan, code, id, _) =>
      if plan !in f.plans then Some(UnknownPlan)
      else if IsTaken(f.patterns, id, plan, code) then Some(Taken) else None
    case Transition(id, to, _, _) =>
      (match Get(f.patterns, id)
       case None => Some(UnknownPattern)
       case Some(p) =>
         if p.lifecycle.IsTerminal() then Some(IsTerminal)
         else if p.lifecycle.Pending? && to.Active? && !ShapeOk(p.kind, p.manifest) then Some(BadShape)
         else None)
    case _ => None
  }

  function Apply(f: Forest, op: Op): Forest {
    if Refusal(f, op).Some? then f
    else match op
      case Create(r, id, at) =>
        f.(patterns := f.patterns + [NewPattern(r, id, if DepthFor(f, r).Ok? then DepthFor(f, r).value else 0, Pending, None, at)])
      case Sentinel(plan, code, id, at) =>
        f.(patterns := f.patterns + [NewPattern(SentinelRequest(plan, code), id, 0, Active, Some("solo-flow marker"), at)])
      case Transition(id, to, reason, at) => f.(patterns := WithMoved(f.patterns, id, to, reason, at))
      case Policy(pop) => f.(policies := Autonomy.Apply(f.policies, pop))
      case AddPlan(plan, project) => if plan in f.plans then f else f.(plans := f.plans[plan := project])
  }

  function Run(ops: seq<Op>): Forest {
    if ops == [] then Forest([], [], map[]) else Apply(Run(ops[..|ops| - 1]), ops[|ops| - 1])
  }

  /** Validation of an explicit binding of work in `plan` (and `round`) to a pattern given by id or short code. */
  function Bind(ps: seq<Pattern>, plan: string, round: Option<string>, ref: string): Result<string, Error> {
    var found := match Get(ps, ref) case Some(p) => Some(p) case None => GetByCode(ps, plan, ref);
    match found
    case None => Err(NoSuchBinding)
    case Some(p) =>
      if p.planId != plan then Err(OtherPlan)
      else if !p.lifecycle.Active? then Err(NotActive)
      else if p.appliesTo.OnPlan? && p.scopeId != plan then Err(OtherScope)
      else if p.appliesTo.OnRound? && round.Some? && p.scopeId != round.value then Err(OtherScope)
      else Ok(p.id)
  }

  class PatternStore {
    var forest: Forest

    constructor ()
      ensures forest == Run([])
    {
      forest := Forest([], [], map[]);
    }

    method Create(r: Request, id: string, at: int) returns (error: Option<Error>)
      modifies this
      ensures forest == Apply(old(forest), Op.Create(r, id, at))
      ensures error == Refusal(old(forest), Op.Create(r, id, at))
    {
      if r.plan !in forest.plans { return Some(UnknownPlan); }
      var cap := DepthCap(forest, r.plan, r.kind);
      var depth := 0;
      if r.parent.Some? {
        var parent := Get(forest.patterns, r.parent.value);
        if parent.None? { return Some(UnknownParent); }
        depth := parent.value.depth + 1;
        if depth > cap { return Some(TooDeep); }
      }
      if IsTaken(forest.patterns, id, r.plan, r.code) { return Some(Taken); }
      forest := forest.(patterns := forest.patterns + [NewPattern(r, id, depth, Pending, None, at)]);
      return None;
    }

    method TransitionLifecycle(id: string, to: Lifecycle, reason: Option<string>, at: int) returns (error: Option<Error>)
      modifies this
      ensures forest == Apply(old(forest), Transition(id, to, reason, at))
      ensures error == Refusal(old(forest), Transition(id, to, reason, at))
    {
      var current := Get(forest.patterns, id);
      if current.None? { return Some(UnknownPattern); }
      if current.value.lifecycle.IsTerminal() { return Some(IsTerminal); }
      if current.value.lifecycle.Pending? && to.Active? {
        var ok := ValidateShape(current.value.kind, current.value.manifest);
        if !ok { return Some(BadShape); }
      }
      forest := forest.(patterns := WithMoved(forest.patterns, id, to, reason, at));
      return None;
    }
  }

  // ── what every operation keeps ─────────────────────────────────────────

  /** The parent was created before, and the depth is one more than the parent's. */
  predicate LinkOk(ps: seq<Pattern>, i: nat)
    requires i < |ps|
  {
    match ps[i].parent
    case None => ps[i].depth == 0
    case Some(p) => exists j :: 0 <= j < i && ps[j].id == p && ps[i].depth == ps[j].depth + 1
  }

  predicate RowOk(p: Pattern) {
    && (p.lifecycle.Active? ==> ShapeOk(p.kind, p.manifest))
    && (p.lifecycle.IsTerminal() <==> p.decidedAt.Some?)
    && 0 <= p.depth <= 10
  }

  predicate UniqueRows(ps: seq<Pattern>) {
    forall i, j :: 0 <= i < j < |ps| ==>
      ps[i].id != ps[j].id && !(ps[i].planId == ps[j].planId && ps[i].code == ps[j].code)
  }

  predicate LinksOk(ps: seq<Pattern>) {
    forall i :: 0 <= i < |ps| ==> LinkOk(ps, i)
  }

  predicate RowsOk(ps: seq<Pattern>, plans: set<string>) {
    forall i :: 0 <= i < |ps| ==> RowOk(ps[i]) && ps[i].planId in plans
  }

  ghost predicate Inv(f: Forest) {
    UniqueRows(f.patterns) && LinksOk(f.patterns) && RowsOk(f.patterns, f.plans.Keys)
  }

  lemma {:induction false} GetNone(ps: seq<Pattern>, id: string, plan: string, code: string)
    ensures Get(ps, id).None? ==> forall i :: 0 <= i < |ps| ==> ps[i].id != id
    ensures GetByCode(ps, plan, code).None? ==> forall i :: 0 <= i < |ps| ==> !(ps[i].planId == plan && ps[i].code == code)
  {
    if ps != [] { GetNone(ps[1..], id, plan, code); }
  }

  lemma SameIdSameRow(ps: seq<Pattern>, q: Pattern, i: nat)
    requires i < |ps| && q in ps && forall a, b :: 0 <= a < b < |ps| ==> ps[a].id != ps[b].id
    ensures q.id == ps[i].id ==> q == ps[i]
  {
    var k :| 0 <= k < |ps| && ps[k] == q;
    assert k < i ==> ps[k].id != ps[i].id;
    assert i < k ==> ps[i].id != ps[k].id;
  }

  lemma ParentIndex(ps: seq<Pattern>, i: nat) returns (j: nat)
    requires i < |ps| && LinkOk(ps, i) && ps[i].parent.Some?
    ensures j < i && ps[j].id == ps[i].parent.value && ps[i].depth == ps[j].depth + 1
  {
    j :| 0 <= j < i && ps[j].id == ps[i].parent.value && ps[i].depth == ps[j].depth + 1;
  }

  lemma CapIsBounded(f: Forest, plan: string, kind: Kind)
    requires plan in f.plans && Autonomy.Inv(f.policies)
    ensures 1 <= DepthCap(f, plan, kind) <= 10
  {
    Autonomy.HitHasProject(f.policies, f.plans[plan], Some(plan), None, Some(kind.Name()));
  }

  lemma AppendKeeps(f: Forest, p: Pattern)
    requires Inv(f) && p.planId in f.plans && RowOk(p) && !IsTaken(f.patterns, p.id, p.planId, p.code)
    requires match p.parent
             case None => p.depth == 0
             case Some(q) => Get(f.patterns, q).Some? && p.depth == Get(f.patterns, q).value.depth + 1
    ensures Inv(f.(patterns := f.patterns + [p]))
  {
    GetNone(f.patterns, p.id, p.planId, p.code);
    hide RowOk, LinkOk;
    assert UniqueRows(f.patterns + [p]);
    AppendKeepsLinks(f.patterns, p);
  }

  lemma AppendKeepsLinks(ps: seq<Pattern>, p: Pattern)
    requires LinksOk(ps)
    requires match p.parent
             case None => p.depth == 0
             case Some(q) => Get(ps, q).Some? && p.depth == Get(ps, q).value.depth + 1
    ensures LinksOk(ps + [p])
  {
    var next := ps + [p];
    forall i | 0 <= i < |next| ensures LinkOk(next, i) {
      if i < |ps| {
        assert LinkOk(ps, i);
        if ps[i].parent.Some? {
          var j := ParentIndex(ps, i);
          assert next[j].id == next[i].parent.value;
        }
      } else if p.parent.Some? {
        var j :| 0 <= j < |ps| && ps[j] == Get(ps, p.parent.value).value;
        assert next[j].id == p.parent.value;
      }
    }
  }

  lemma MoveKeeps(f: Forest, id: string, to: Lifecycle, reason: Option<string>, at: int)
    requires Inv(f) && Refusal(f, Transition(id, to, reason, at)).None?
    ensures Inv(f.(patterns := WithMoved(f.patterns, id, to, reason, at)))
  {
    var p := Get(f.patterns, id).value;
    assert RowOk(p);
    hide RowOk, ShapeOk, LinksOk, Moved;
    MoveKeepsUnique(f.patterns, id, to, reason, at);
    MoveKeepsLinks(f.patterns, id, to, reason, at);
    MoveKeepsRows(f.patterns, f.plans.Keys, p, to, reason, at);
  }

  lemma MoveKeepsUnique(ps: seq<Pattern>, id: string, to: Lifecycle, reason: Option<string>, at: int)
    requires UniqueRows(ps)
    ensures UniqueRows(WithMoved(ps, id, to, reason, at))
  {
    var next := WithMoved(ps, id, to, reason, at);
    hide Moved, WithMoved;
    forall i, j | 0 <= i < j < |next|
      ensures next[i].id != next[j].id && !(next[i].planId == next[j].planId && next[i].code == next[j].code)
    {
      SameNames(ps, next, i, id, to, reason, at);
      SameNames(ps, next, j, id, to, reason, at);
      Distinct(ps, i, j);
    }
  }

  lemma SameNames(ps: seq<Pattern>, next: seq<Pattern>, i: nat, id: string, to: Lifecycle, reason: Option<string>, at: int)
    requires next == WithMoved(ps, id, to, reason, at) && i < |ps|
    ensures next[i].id == ps[i].id && next[i].planId == ps[i].planId && next[i].code == ps[i].code
  {
  }

  lemma Distinct(ps: seq<Pattern>, i: nat, j: nat)
    requires UniqueRows(ps) && i < j < |ps|
    ensures ps[i].id != ps[j].id && !(ps[i].planId == ps[j].planId && ps[i].code == ps[j].code)
  {
  }

  lemma MoveKeepsRows(ps: seq<Pattern>, plans: set<string>, p: Pattern, to: Lifecycle, reason: Option<string>, at: int)
    requires UniqueRows(ps) && RowsOk(ps, plans) && p in ps
    requires !p.lifecycle.IsTerminal() && (p.lifecycle.Pending? && to.Active? ==> ShapeOk(p.kind, p.manifest))
    ensures RowsOk(WithMoved(ps, p.id, to, reason, at), plans)
  {
    var next := WithMoved(ps, p.id, to, reason, at);
    assert RowOk(p);
    hide RowOk, ShapeOk, WithMoved;
    MovedRowOk(p, to, reason, at);
    forall i | 0 <= i < |ps| ensures RowOk(next[i]) && next[i].planId in plans {
      SameIdSameRow(ps, p, i);
      hide UniqueRows, Moved;
      assert RowOk(ps[i]) && ps[i].planId in plans;
      assert Moved(ps[i], to, reason, at).planId == ps[i].planId by { MovedPlan(ps[i], to, reason, at); }
    }
  }

  lemma MovedPlan(p: Pattern, to: Lifecycle, reason: Option<string>, at: int)
    ensures Moved(p, to, reason, at).planId == p.planId
  {
  }

  lemma MoveKeepsLinks(ps: seq<Pattern>, id: string, to: Lifecycle, reason: Option<string>, at: int)
    requires LinksOk(ps)
    ensures LinksOk(WithMoved(ps, id, to, reason, at))
  {
    var next := WithMoved(ps, id, to, reason, at);
    forall i | 0 <= i < |next| ensures LinkOk(next, i) {
      assert LinkOk(ps, i);
      if ps[i].parent.Some? {
        var j := ParentIndex(ps, i);
        assert next[j].id == next[i].parent.value;
      }
    }
  }

  lemma MovedRowOk(p: Pattern, to: Lifecycle, reason: Option<string>, at: int)
    requires RowOk(p) && !p.lifecycle.IsTerminal()
    requires p.lifecycle.Pending? && to.Active? ==> ShapeOk(p.kind, p.manifest)
    ensures RowOk(Moved(p, to, reason, at))
  {
    hide ShapeOk;
  }

  /** Policies are written with existing plans and projects, none of them nameless. */
  ghost predicate OpOk(op: Op) {
    op.Policy? ==> Autonomy.OpOk(op.op)
  }

  lemma ApplyKeeps(f: Forest, op: Op)
    requires Inv(f) && Autonomy.Inv(f.policies) && OpOk(op)
    ensures Inv(Apply(f, op)) && Autonomy.Inv(Apply(f, op).policies)
  {
    if Refusal(f, op).None? {
      match op
      case Create(r, id, at) =>
        CapIsBounded(f, r.plan, r.kind);
        hide Autonomy.Inv;
        assert r.parent.Some? ==> exists j :: 0 <= j < |f.patterns| && f.patterns[j] == Get(f.patterns, r.parent.value).value;
        assert RowOk(NewPattern(r, id, DepthFor(f, r).value, Pending, None, at));
        AppendKeeps(f, NewPattern(r, id, DepthFor(f, r).value, Pending, None, at));
      case Sentinel(plan, code, id, at) =>
        hide Autonomy.Inv;
        AppendKeeps(f, NewPattern(SentinelRequest(plan, code), id, 0, Active, Some("solo-flow marker"), at));
      case Transition(id, to, reason, at) =>
        hide Autonomy.Inv;
        MoveKeeps(f, id, to, reason, at);
      case Policy(pop) => Autonomy.ApplyKeepsInv(f.policies, pop);
      case AddPlan(_, _) =>
    }
  }

  /** In every reachable store ids and short codes are unique, links point to earlier patterns with one less depth, every
      active pattern has a valid shape, and no pattern is deeper than ten. */
  lemma {:induction false} RunKeeps(ops: seq<Op>)
    requires forall i :: 0 <= i < |ops| ==> OpOk(ops[i])
    ensures Inv(Run(ops)) && Autonomy.Inv(Run(ops).policies)
  {
    if ops != [] {
      RunKeeps(ops[..|ops| - 1]);
      hide Inv, Autonomy.Inv, Apply;
      ApplyKeeps(Run(ops[..|ops| - 1]), ops[|ops| - 1]);
    }
  }

  // ── the forest ─────────────────────────────────────────────────────────

  /** The pattern reached by following `n` parent links. */
  function Climb(ps: seq<Pattern>, id: string, n: nat): Option<Pattern>
    decreases n
  {
    match Get(ps, id)
    case None => None
    case Some(p) =>
      if n == 0 then Some(p)
      else match p.parent case None => None case Some(q) => Climb(ps, q, n - 1)
  }

  lemma {:induction false} GetAt(ps: seq<Pattern>, i: nat)
    requires i < |ps| && forall a, b :: 0 <= a < b < |ps| ==> ps[a].id != ps[b].id
    ensures Get(ps, ps[i].id) == Some(ps[i])
  {
    if i > 0 {
      assert ps[0].id != ps[i].id;
      GetAt(ps[1..], i - 1);
    }
  }

  /** From any pattern the parent links reach a root in exactly `depth` steps, one depth less with each step. */
  lemma {:induction false} ClimbsToRoot(f: Forest, i: nat, n: nat)
    requires Inv(f) && i < |f.patterns| && n <= f.patterns[i].depth
    ensures var p := f.patterns[i];
            var q := Climb(f.patterns, p.id, n);
            && q.Some? && q.value.depth == p.depth - n
            && (q.value.parent.None? <==> n == p.depth)
    ensures n > 0 ==> Climb(f.patterns, f.patterns[i].id, n).value.id != f.patterns[i].id
    decreases n
  {
    GetAt(f.patterns, i);
    ParentMeansDeep(f, i);
    var p := f.patterns[i];
    if n > 0 {
      var j := ParentIndex(f.patterns, i);
      ClimbsToRoot(f, j, n - 1);
      hide RowOk, LinkOk, Inv;
      assert Climb(f.patterns, p.id, n) == Climb(f.patterns, p.parent.value, n - 1);
      var q := Climb(f.patterns, p.id, n).value;
      assert q.depth < p.depth;
      ClimbIsRow(f.patterns, p.id, n);
      SameIdSameRow(f.patterns, q, i);
    }
  }

  lemma {:induction false} ClimbIsRow(ps: seq<Pattern>, id: string, n: nat)
    ensures Climb(ps, id, n).Some? ==> Climb(ps, id, n).value in ps
    decreases n
  {
    if n > 0 && Get(ps, id).Some? && Get(ps, id).value.parent.Some? {
      ClimbIsRow(ps, Get(ps, id).value.parent.value, n - 1);
    }
  }

  lemma ParentMeansDeep(f: Forest, i: nat)
    requires Inv(f) && i < |f.patterns|
    ensures f.patterns[i].parent.None? <==> f.patterns[i].depth == 0
  {
    assert LinkOk(f.patterns, i);
    if f.patterns[i].parent.Some? {
      var j :| 0 <= j < i && f.patterns[j].id == f.patterns[i].parent.value && f.patterns[i].depth == f.patterns[j].depth + 1;
      assert RowOk(f.patterns[j]);
    }
  }

  // ── history ────────────────────────────────────────────────────────────

  function After(f: Forest, ops: seq<Op>): Forest {
    if ops == [] then f else Apply(After(f, ops[..|ops| - 1]), ops[|ops| - 1])
  }

  /** The parts of a row no operation changes. */
  predicate SameOrigin(a: Pattern, b: Pattern) {
    && a.id == b.id && a.code == b.code && a.planId == b.planId && a.kind == b.kind && a.appliesTo == b.appliesTo
    && a.scopeId == b.scopeId && a.parent == b.parent && a.depth == b.depth && a.manifest == b.manifest
  }

  lemma StepKeepsRow(f: Forest, op: Op, i: nat)
    requires i < |f.patterns| && forall a, b :: 0 <= a < b < |f.patterns| ==> f.patterns[a].id != f.patterns[b].id
    ensures i < |Apply(f, op).patterns| && SameOrigin(f.patterns[i], Apply(f, op).patterns[i])
    ensures f.patterns[i].lifecycle.IsTerminal() ==> Apply(f, op).patterns[i] == f.patterns[i]
  {
    GetAt(f.patterns, i);
  }

  /** Rows are never removed, their origin never changes, and a terminal lifecycle is final: the whole row stays. */
  lemma {:induction false} RowsPersist(f: Forest, ops: seq<Op>, i: nat)
    requires Inv(f) && Autonomy.Inv(f.policies) && i < |f.patterns|
    requires forall k :: 0 <= k < |ops| ==> OpOk(ops[k])
    ensures Inv(After(f, ops)) && Autonomy.Inv(After(f, ops).policies)
    ensures i < |After(f, ops).patterns| && SameOrigin(f.patterns[i], After(f, ops).patterns[i])
    ensures f.patterns[i].lifecycle.IsTerminal() ==> After(f, ops).patterns[i] == f.patterns[i]
    decreases |ops|
  {
    if ops != [] {
      RowsPersist(f, ops[..|ops| - 1], i);
      hide Apply, RowOk, LinkOk, Autonomy.Inv;
      ApplyKeeps(After(f, ops[..|ops| - 1]), ops[|ops| - 1]);
      StepKeepsRow(After(f, ops[..|ops| - 1]), ops[|ops| - 1], i);
    }
  }

  /** Work bound explicitly is bound to a shape-valid, active pattern of its own plan, and that pattern keeps its shape and
      plan ever after, even when its lifecycle goes back to pending. */
  lemma BindingsAreSound(f: Forest, plan: string, round: Option<string>, ref: string, later: seq<Op>)
    requires Inv(f) && Autonomy.Inv(f.policies) && Bind(f.patterns, plan, round, ref).Ok?
    requires forall k :: 0 <= k < |later| ==> OpOk(later[k])
    ensures var id := Bind(f.patterns, plan, round, ref).value;
            && Get(f.patterns, id).Some? && Get(f.patterns, id).value.lifecycle.Active?
            && Get(After(f, later).patterns, id).Some?
            && Get(After(f, later).patterns, id).value.planId == plan
            && ShapeOk(Get(After(f, later).patterns, id).value.kind, Get(After(f, later).patterns, id).value.manifest)
  {
    var found := match Get(f.patterns, ref) case Some(p) => Some(p) case None => GetByCode(f.patterns, plan, ref);
    var p := found.value;
    var i :| 0 <= i < |f.patterns| && f.patterns[i] == p;
    assert RowOk(p);
    assert ShapeOk(p.kind, p.manifest);
    GetAt(f.patterns, i);
    hide ShapeOk, RowOk, LinkOk, After;
    RowsPersist(f, later, i);
    GetAt(After(f, later).patterns, i);
  }

  /** The operation made the row: it was accepted, and there was no row of that id before. */
  predicate Made(f: Forest, op: Op, p: Pattern) {
    op.Create? && op.id == p.id && Get(f.patterns, p.id).None? && Refusal(f, op).None?
  }

  /** A child was within the depth cap in force when it was created. */
  lemma {:induction false} DepthWasWithinCap(ops: seq<Op>, i: nat)
    requires forall k :: 0 <= k < |ops| ==> OpOk(ops[k])
    requires i < |Run(ops).patterns| && Run(ops).patterns[i].parent.Some?
    ensures var p := Run(ops).patterns[i];
            exists k :: 0 <= k < |ops| && Made(Run(ops[..k]), ops[k], p)
                        && p.planId in Run(ops[..k]).plans && p.depth <= DepthCap(Run(ops[..k]), p.planId, p.kind)
  {
    var before := ops[..|ops| - 1];
    var op := ops[|ops| - 1];
    RunKeeps(before);
    hide Inv, RowOk, LinkOk, Autonomy.Inv, DepthCap;
    if i < |Run(before).patterns| {
      UniqueIds(before);
      StepKeepsRow(Run(before), op, i);
      hide Apply, Made;
      DepthWasWithinCap(before, i);
      var p, old_ := Run(ops).patterns[i], Run(before).patterns[i];
      var k :| 0 <= k < |before| && Made(Run(before[..k]), before[k], old_)
               && old_.planId in Run(before[..k]).plans && old_.depth <= DepthCap(Run(before[..k]), old_.planId, old_.kind);
      assert ops[..k] == before[..k] && ops[k] == before[k];
      SameMaker(Run(ops[..k]), ops[k], old_, p);
    } else {
      assert ops[..|ops| - 1] == before;
      assert op.Create?;
      CreatedIsNew(Run(before), op);
    }
  }

  lemma SameMaker(f: Forest, op: Op, p: Pattern, q: Pattern)
    requires Made(f, op, p) && q.id == p.id
    ensures Made(f, op, q)
  {
  }

  lemma CreatedIsNew(f: Forest, op: Op)
    requires op.Create? && Refusal(f, op).None?
    ensures Get(f.patterns, op.id).None?
  {
    hide DepthFor;
  }

  lemma UniqueIds(ops: seq<Op>)
    requires forall k :: 0 <= k < |ops| ==> OpOk(ops[k])
    ensures var ps := Run(ops).patterns; forall a, b :: 0 <= a < b < |ps| ==> ps[a].id != ps[b].id
  {
    RunKeeps(ops);
  }

  /** The gate stands only on the way from pending to active: a pending pattern of any shape may be declared converged. */
  lemma ConvergedNeedsNoShape(f: Forest, id: string, reason: Option<string>, at: int)
    requires Get(f.patterns, id).Some? && Get(f.patterns, id).value.lifecycle.Pending?
    ensures Refusal(f, Transition(id, Converged, reason, at)).None?
    ensures var p := Get(Apply(f, Transition(id, Converged, reason, at)).patterns, id);
            && p.Some? && p.value.lifecycle == Converged && p.value.manifest == Get(f.patterns, id).value.manifest
    ensures Refusal(f, Transition(id, Active, reason, at)).None?
            <==> ShapeOk(Get(f.patterns, id).value.kind, Get(f.patterns, id).value.manifest)
  {
    hide ShapeOk, WithMoved;
    GetMoved(f.patterns, id, Converged, reason, at);
  }

  lemma {:induction false} GetMoved(ps: seq<Pattern>, id: string, to: Lifecycle, reason: Option<string>, at: int)
    ensures Get(WithMoved(ps, id, to, reason, at), id)
            == match Get(ps, id) case None => None case Some(p) => Some(Moved(p, to, reason, at))
  {
    if ps != [] { GetMoved(ps[1..], id, to, reason, at); }
  }
}
