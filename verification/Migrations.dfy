/** The migration runner: any number of openers of one database, errors and crashes at any statement. */
module Migrations {
  import opened Wrappers

  /** The embedded migrations are numbered 1 to 19 in the order they are applied. */
  const COUNT: nat := 19

  /** What the SQL of a version does to a schema (nothing when it fails), and `PRAGMA foreign_key_check`. */
  datatype Scripts<!S> = Scripts(empty: S, apply: (nat, S) -> Option<S>, fkOk: S -> bool)

  /** Schema and the rows of `schema_migrations`, in the order they were inserted. */
  datatype Db<S> = Db(schema: S, versions: seq<nat>)

  // ── what a database must look like ─────────────────────────────────────

  /** The schema after versions 1..k, if all of their scripts work. */
  function Fold<S>(m: Scripts<S>, k: nat): Option<S> {
    if k == 0 then Some(m.empty)
    else match Fold(m, k - 1)
      case None => None
      case Some(s) => m.apply(k, s)
  }

  function UpTo(k: nat): (s: seq<nat>)
    ensures |s| == k
  {
    if k == 0 then [] else UpTo(k - 1) + [k]
  }

  /** The committed versions are 1..k, each once and in order; the schema is their fold and keeps referential integrity. */
  ghost predicate Consistent<S>(m: Scripts<S>, db: Db<S>) {
    && db.versions == UpTo(|db.versions|)
    && |db.versions| <= COUNT
    && Fold(m, |db.versions|) == Some(db.schema)
    && m.fkOk(db.schema)
  }

  function Max(versions: seq<nat>): nat {
    if versions == [] then 0
    else
      var rest := Max(versions[..|versions| - 1]);
      if versions[|versions| - 1] > rest then versions[|versions| - 1] else rest
  }

  lemma {:induction false} InUpTo(k: nat, v: nat)
    ensures v in UpTo(k) <==> 1 <= v <= k
  {
    if k > 0 { InUpTo(k - 1, v); }
  }

  lemma {:induction false} MaxUpTo(k: nat)
    ensures Max(UpTo(k)) == k
  {
    if k > 0 {
      assert UpTo(k)[..k - 1] == UpTo(k - 1) && UpTo(k)[k - 1] == k;
      MaxUpTo(k - 1);
    }
  }

  // ── one runner ─────────────────────────────────────────────────────────

  /** Position of a runner; `i` indexes the migration it is at, `current` is the version it read. */
  datatype Phase =
    | ReadCurrent
    | Next(i: nat, current: nat)
    | SwitchOff(i: nat, current: nat)
    | BeginTx(i: nat, current: nat)
    | Script(i: nat, current: nat)
    | Record(i: nat, current: nat)
    | FkCheck(i: nat, current: nat)
    | Commit(i: nat, current: nat)
    | Rollback(i: nat, current: nat)
    | SwitchOn(i: nat, current: nat, ok: bool)
    | Returned(ok: bool)
    | Crashed

  /** A connection: where it is, its uncommitted copy, its foreign-key switch. */
  datatype Runner<S> = Runner(phase: Phase, copy: Option<Db<S>>, foreignKeys: bool)

  /** The committed database, and the runner that holds the write lock. */
  datatype System<S> = System(db: Db<S>, writer: Option<nat>, runners: seq<Runner<S>>)

  datatype Event =
    | Take(runner: nat, fails: bool)
    | Crash(runner: nat)
    | Open

  /** Statements that read or switch, and their failures; the store is not touched. */
  function Local<S>(db: Db<S>, r: Runner<S>, fails: bool): Runner<S> {
    match r.phase
    case ReadCurrent => r.(phase := if fails then Returned(false) else Next(0, Max(db.versions)))
    case Next(i, current) =>
      if i >= COUNT then r.(phase := Returned(true))
      else if i + 1 <= current then r.(phase := Next(i + 1, current))
      else r.(phase := SwitchOff(i, current))
    case SwitchOff(i, current) =>
      if fails then r.(phase := Returned(false)) else r.(phase := BeginTx(i, current), foreignKeys := false)
    case BeginTx(i, current) => r.(phase := if fails then Rollback(i, current) else Script(i, current))
    case SwitchOn(i, current, ok) =>
      if fails then r.(phase := Returned(false))
      else r.(phase := if ok then Next(i + 1, current) else Returned(false), foreignKeys := true)
    case _ => r
  }

  /** Statements on the uncommitted copy. */
  function OnCopy<S>(m: Scripts<S>, r: Runner<S>, copy: Db<S>, fails: bool): Runner<S>
    requires r.phase.Record? || r.phase.FkCheck?
  {
    match r.phase
    case Record(i, current) =>
      if fails || i >= COUNT || i + 1 in copy.versions then r.(phase := Rollback(i, current))
      else r.(phase := FkCheck(i, current), copy := Some(copy.(versions := copy.versions + [i + 1])))
    case FkCheck(i, current) =>
      r.(phase := if fails || !m.fkOk(copy.schema) then Rollback(i, current) else Commit(i, current))
  }

  /** The first statement of a script takes the write lock and starts from the committed state; a runner that cannot get
      the lock waits, or is told the database is busy. */
  function RunScript<S>(m: Scripts<S>, s: System<S>, n: nat, fails: bool): System<S>
    requires n < |s.runners| && s.runners[n].phase.Script?
  {
    var r := s.runners[n];
    var i, current := r.phase.i, r.phase.current;
    if fails then s.(runners := s.runners[n := r.(phase := Rollback(i, current))])
    else if s.writer.Some? || i >= COUNT then s
    else match m.apply(i + 1, s.db.schema)
      case None => s.(runners := s.runners[n := r.(phase := Rollback(i, current))])
      case Some(schema) =>
        System(s.db, Some(n), s.runners[n := r.(phase := Record(i, current), copy := Some(s.db.(schema := schema)))])
  }

  /** A failed commit leaves no open transaction. */
  function RunCommit<S>(s: System<S>, n: nat, fails: bool): System<S>
    requires n < |s.runners| && s.runners[n].phase.Commit?
  {
    var r := s.runners[n];
    var done := r.(phase := SwitchOn(r.phase.i, r.phase.current, !fails), copy := None);
    System(if fails || r.copy.None? then s.db else r.copy.value, Released(s, n), s.runners[n := done])
  }

  function Released<S>(s: System<S>, n: nat): Option<nat> {
    if s.writer == Some(n) then None else s.writer
  }

  function TakeStep<S>(m: Scripts<S>, s: System<S>, n: nat, fails: bool): System<S>
    requires n < |s.runners|
  {
    var r := s.runners[n];
    match r.phase
    case Script(_, _) => RunScript(m, s, n, fails)
    case Record(_, _) => if r.copy.None? then s else s.(runners := s.runners[n := OnCopy(m, r, r.copy.value, fails)])
    case FkCheck(_, _) => if r.copy.None? then s else s.(runners := s.runners[n := OnCopy(m, r, r.copy.value, fails)])
    case Commit(_, _) => RunCommit(s, n, fails)
    case Rollback(i, current) =>
      System(s.db, Released(s, n), s.runners[n := r.(phase := SwitchOn(i, current, false), copy := None)])
    case _ => s.(runners := s.runners[n := Local(s.db, r, fails)])
  }

  function After<S>(m: Scripts<S>, s: System<S>, e: Event): System<S> {
    match e
    case Take(n, fails) => if n < |s.runners| then TakeStep(m, s, n, fails) else s
    case Crash(n) =>
      if n < |s.runners| then System(s.db, Released(s, n), s.runners[n := Runner(Crashed, None, false)]) else s
    case Open => s.(runners := s.runners + [Runner(ReadCurrent, None, true)])
  }

  function Run<S>(m: Scripts<S>, s: System<S>, events: seq<Event>): System<S> {
    if events == [] then s else After(m, Run(m, s, events[..|events| - 1]), events[|events| - 1])
  }

  // ── the invariant ──────────────────────────────────────────────────────

  /** Every version before the runner's index is committed; the read version is a committed one. */
  ghost predicate PositionOk<S>(db: Db<S>, phase: Phase) {
    match phase
    case Next(i, current) => i <= |db.versions| && current <= |db.versions|
    case SwitchOff(i, current) => i <= |db.versions| && current <= |db.versions| && i < COUNT
    case BeginTx(i, current) => i <= |db.versions| && current <= |db.versions| && i < COUNT
    case Script(i, current) => i <= |db.versions| && current <= |db.versions| && i < COUNT
    case Record(i, current) => i <= |db.versions| && current <= |db.versions| && i < COUNT
    case FkCheck(i, current) => i <= |db.versions| && current <= |db.versions| && i < COUNT
    case Commit(i, current) => i <= |db.versions| && current <= |db.versions| && i < COUNT
    case Rollback(i, current) => i <= |db.versions| && current <= |db.versions| && i < COUNT
    case SwitchOn(i, current, ok) => (if ok then i + 1 else i) <= |db.versions| && current <= |db.versions|
    case Returned(ok) => ok ==> |db.versions| == COUNT
    case _ => true
  }

  /** The uncommitted copy is the committed state plus the effects of the statements executed so far. */
  ghost predicate CopyOk<S>(m: Scripts<S>, db: Db<S>, r: Runner<S>) {
    match r.phase
    case Record(i, _) =>
      r.copy.Some? && i < COUNT && r.copy.value.versions == db.versions
      && m.apply(i + 1, db.schema) == Some(r.copy.value.schema)
    case FkCheck(i, _) =>
      r.copy.Some? && i < COUNT && i + 1 !in db.versions && r.copy.value.versions == db.versions + [i + 1]
      && m.apply(i + 1, db.schema) == Some(r.copy.value.schema)
    case Commit(i, _) =>
      r.copy.Some? && i < COUNT && i + 1 !in db.versions && r.copy.value.versions == db.versions + [i + 1]
      && m.apply(i + 1, db.schema) == Some(r.copy.value.schema) && m.fkOk(r.copy.value.schema)
    case _ => true
  }

  predicate Holds(phase: Phase) {
    phase.Record? || phase.FkCheck? || phase.Commit?
  }

  /** The foreign-key switch is off only inside a migration, and after a failed attempt to switch it back. */
  ghost predicate SwitchOk<S>(r: Runner<S>) {
    r.phase.ReadCurrent? || r.phase.Next? || r.phase.SwitchOff? || r.phase == Returned(true) ==> r.foreignKeys
  }

  ghost predicate RunnerOk<S>(m: Scripts<S>, s: System<S>, n: nat)
    requires n < |s.runners|
  {
    && PositionOk(s.db, s.runners[n].phase)
    && CopyOk(m, s.db, s.runners[n])
    && SwitchOk(s.runners[n])
    && (Holds(s.runners[n].phase) ==> s.writer == Some(n))
  }

  ghost predicate Inv<S>(m: Scripts<S>, s: System<S>) {
    && Consistent(m, s.db)
    && forall n :: 0 <= n < |s.runners| ==> RunnerOk(m, s, n)
  }

  /** The step a runner takes keeps its own facts; unless it commits, the committed state stays. */
  lemma LocalOk<S>(m: Scripts<S>, db: Db<S>, r: Runner<S>, fails: bool)
    requires Max(db.versions) == |db.versions| <= COUNT && PositionOk(db, r.phase) && SwitchOk(r)
    requires !Holds(r.phase) && !r.phase.Script? && !r.phase.Rollback?
    ensures var next := Local(db, r, fails);
            PositionOk(db, next.phase) && CopyOk(m, db, next) && SwitchOk(next) && !Holds(next.phase)
  {
  }

  lemma CopyStepOk<S>(m: Scripts<S>, db: Db<S>, r: Runner<S>, fails: bool)
    requires r.phase.Record? || r.phase.FkCheck?
    requires PositionOk(db, r.phase) && CopyOk(m, db, r)
    ensures var next := OnCopy(m, r, r.copy.value, fails);
            PositionOk(db, next.phase) && CopyOk(m, db, next) && SwitchOk(next)
  {
  }

  /** A commit appends exactly the next version: all before it are there, and it is not. */
  lemma CommitOk<S>(m: Scripts<S>, db: Db<S>, r: Runner<S>)
    requires Consistent(m, db) && r.phase.Commit? && PositionOk(db, r.phase) && CopyOk(m, db, r)
    ensures Consistent(m, r.copy.value)
    ensures r.phase.i == |db.versions| && |r.copy.value.versions| == |db.versions| + 1
  {
    var i := r.phase.i;
    InUpTo(|db.versions|, i + 1);
    assert UpTo(i + 1) == UpTo(i) + [i + 1];
    assert Fold(m, i + 1) == m.apply(i + 1, db.schema);
  }

  /** Nothing known of a runner outside its transaction is lost when another runner commits. */
  lemma CommitSparesOthers<S>(m: Scripts<S>, db: Db<S>, next: Db<S>, r: Runner<S>)
    requires |db.versions| <= |next.versions| <= COUNT
    requires PositionOk(db, r.phase) && !Holds(r.phase)
    ensures PositionOk(next, r.phase) && CopyOk(m, next, r)
  {
  }

  lemma {:induction false} TakeKeepsInv<S>(m: Scripts<S>, s: System<S>, n: nat, fails: bool)
    requires Inv(m, s) && n < |s.runners|
    ensures Inv(m, TakeStep(m, s, n, fails))
    ensures |s.db.versions| <= |TakeStep(m, s, n, fails).db.versions|
  {
    assert RunnerOk(m, s, n);
    var r := s.runners[n];
    var t := TakeStep(m, s, n, fails);
    if r.phase.Commit? {
      CommitOk(m, s.db, r);
      hide Consistent;
      forall k | 0 <= k < |t.runners| ensures RunnerOk(m, t, k) {
        assert RunnerOk(m, s, k);
        if k != n {
          CommitSparesOthers(m, s.db, t.db, s.runners[k]);
        }
      }
    } else {
      forall k | 0 <= k < |s.runners| && Holds(s.runners[k].phase) ensures s.writer == Some(k) { assert RunnerOk(m, s, k); }
      OwnStepOk(m, s, n, fails);
      hide Consistent, PositionOk, CopyOk, SwitchOk, TakeStep;
      forall k | 0 <= k < |t.runners| ensures RunnerOk(m, t, k) {
        assert RunnerOk(m, s, k);
      }
    }
  }

  lemma OwnStepOk<S>(m: Scripts<S>, s: System<S>, n: nat, fails: bool)
    requires Consistent(m, s.db) && n < |s.runners| && RunnerOk(m, s, n) && !s.runners[n].phase.Commit?
    requires forall k :: 0 <= k < |s.runners| && Holds(s.runners[k].phase) ==> s.writer == Some(k)
    ensures var t := TakeStep(m, s, n, fails);
            && t.db == s.db && |t.runners| == |s.runners| && RunnerOk(m, t, n)
            && (forall k :: 0 <= k < |s.runners| && k != n ==> t.runners[k] == s.runners[k])
            && (t.writer == s.writer || (s.writer == Some(n) && t.writer == None) || (s.writer == None && t.writer == Some(n)))
  {
    var r := s.runners[n];
    if r.phase.Record? || r.phase.FkCheck? {
      hide Consistent, PositionOk, CopyOk, SwitchOk, OnCopy;
      CopyStepOk(m, s.db, r, fails);
    } else if r.phase.Script? || r.phase.Rollback? {
      hide Consistent;
    } else {
      MaxUpTo(|s.db.versions|);
      assert Max(s.db.versions) == |s.db.versions| <= COUNT;
      hide Consistent, Max, Local, PositionOk, CopyOk, SwitchOk;
      LocalOk(m, s.db, r, fails);
    }
  }

  lemma EventKeepsInv<S>(m: Scripts<S>, s: System<S>, e: Event)
    requires Inv(m, s)
    ensures Inv(m, After(m, s, e))
    ensures |s.db.versions| <= |After(m, s, e).db.versions|
  {
    match e
    case Take(n, fails) => if n < |s.runners| { TakeKeepsInv(m, s, n, fails); }
    case Crash(n) =>
      var t := After(m, s, e);
      forall k | 0 <= k < |t.runners| ensures RunnerOk(m, t, k) { assert RunnerOk(m, s, k); }
    case Open =>
      var t := After(m, s, e);
      forall k | 0 <= k < |t.runners| ensures RunnerOk(m, t, k) { if k < |s.runners| { assert RunnerOk(m, s, k); } }
  }

  ghost predicate Init<S>(m: Scripts<S>, s: System<S>) {
    Consistent(m, s.db) && s.writer == None && s.runners == []
  }

  lemma {:induction false} RunKeepsInv<S>(m: Scripts<S>, s: System<S>, events: seq<Event>)
    requires Init(m, s)
    ensures Inv(m, Run(m, s, events))
  {
    if events != [] {
      RunKeepsInv(m, s, events[..|events| - 1]);
      hide Inv, Init, After;
      EventKeepsInv(m, Run(m, s, events[..|events| - 1]), events[|events| - 1]);
    }
  }

  // ── main results ───────────────────────────────────────────────────────

  /** At every moment of every run the committed versions are 1..k, each committed once and in order, the committed schema
      is the fold of scripts 1..k, and it passes the foreign-key check. */
  lemma CommittedIsPrefix<S>(m: Scripts<S>, s: System<S>, events: seq<Event>)
    requires Init(m, s)
    ensures Consistent(m, Run(m, s, events).db)
  {
    RunKeepsInv(m, s, events);
  }

  /** A runner that reports success leaves all versions committed and foreign keys enforced on its connection. */
  lemma SuccessMeansComplete<S>(m: Scripts<S>, s: System<S>, events: seq<Event>, n: nat)
    requires Init(m, s)
    requires n < |Run(m, s, events).runners| && Run(m, s, events).runners[n].phase == Returned(true)
    ensures Run(m, s, events).db.versions == UpTo(COUNT)
    ensures Run(m, s, events).runners[n].foreignKeys
  {
    RunKeepsInv(m, s, events);
    assert RunnerOk(m, Run(m, s, events), n);
  }

  lemma UpToGrows<S>(m: Scripts<S>, a: Db<S>, b: Db<S>)
    requires Consistent(m, a) && Consistent(m, b) && |a.versions| <= |b.versions|
    ensures a.versions <= b.versions
  {
    UpToPrefix(|a.versions|, |b.versions|);
  }

  lemma {:induction false} UpToPrefix(k: nat, n: nat)
    requires k <= n
    ensures UpTo(k) <= UpTo(n)
  {
    if k < n { UpToPrefix(k, n - 1); }
  }

  lemma StepGrows<S>(m: Scripts<S>, s: System<S>, e: Event)
    requires Inv(m, s)
    ensures s.db.versions <= After(m, s, e).db.versions
  {
    EventKeepsInv(m, s, e);
    hide After;
    UpToGrows(m, s.db, After(m, s, e).db);
  }

  lemma RunSnoc<S>(m: Scripts<S>, s: System<S>, events: seq<Event>, e: Event)
    ensures Run(m, s, events + [e]) == After(m, Run(m, s, events), e)
  {
    hide After;
    assert (events + [e])[..|events|] == events;
  }

  lemma {:induction false} OnlyGrows<S>(m: Scripts<S>, s: System<S>, events: seq<Event>, later: seq<Event>)
    requires Init(m, s)
    ensures Run(m, s, events).db.versions <= Run(m, s, events + later).db.versions
    decreases |later|
  {
    hide Run, After, Inv, Init;
    if later == [] {
      assert events + later == events;
    } else {
      var n := |later| - 1;
      OnlyGrows(m, s, events, later[..n]);
      RunKeepsInv(m, s, events + later[..n]);
      StepGrows(m, Run(m, s, events + later[..n]), later[n]);
      RunSnoc(m, s, events + later[..n], later[n]);
      assert events + later == events + later[..n] + [later[n]];
    }
  }

  /** Once all versions are committed no later event changes the database. */
  lemma CompleteIsFinal<S>(m: Scripts<S>, s: System<S>, events: seq<Event>, later: seq<Event>)
    requires Init(m, s) && |Run(m, s, events).db.versions| == COUNT
    ensures Run(m, s, events + later).db == Run(m, s, events).db
  {
    RunKeepsInv(m, s, events);
    RunKeepsInv(m, s, events + later);
    OnlyGrows(m, s, events, later);
  }

  /** Of two runners that reach the same version, the one whose transaction comes second is refused, never doubled. */
  lemma LateRunnerIsRefused<S>(m: Scripts<S>, s: System<S>, n: nat, fails: bool)
    requires Inv(m, s) && n < |s.runners| && s.runners[n].phase.Record? && s.runners[n].phase.i < |s.db.versions|
    ensures TakeStep(m, s, n, fails).runners[n].phase.Rollback?
    ensures TakeStep(m, s, n, fails).db == s.db
  {
    assert RunnerOk(m, s, n);
    InUpTo(|s.db.versions|, s.runners[n].phase.i + 1);
  }

  // ── one opener left alone ──────────────────────────────────────────────

  datatype Statement = ReadMax | PragmaOff | BeginStmt | ScriptStmt | RecordStmt | CheckStmt | CommitStmt | PragmaOn

  /** All scripts work from the empty schema on, and each leaves referential integrity. */
  ghost predicate Sound<S>(m: Scripts<S>) {
    forall k :: 0 <= k <= COUNT ==> Fold(m, k).Some? && m.fkOk(Fold(m, k).value)
  }

  class Connection<S> {
    const m: Scripts<S>
    var db: Db<S>
    var foreignKeys: bool

    constructor (m: Scripts<S>, db: Db<S>)
      ensures this.m == m && this.db == db && foreignKeys
    {
      this.m := m;
      this.db := db;
      foreignKeys := true;
    }

    /** One migration in its transaction; `fault` says which statements fail. */
    method ApplyOne(version: nat, fault: (nat, Statement) -> bool) returns (ok: bool)
      requires Consistent(m, db) && version == |db.versions| + 1 <= COUNT
      modifies this`db
      ensures Consistent(m, db)
      ensures if ok then db.versions == old(db.versions) + [version] else db == old(db)
      ensures ok <==> && (forall st :: st != ReadMax && st != PragmaOff && st != PragmaOn ==> !fault(version, st))
                      && m.apply(version, old(db.schema)).Some? && m.fkOk(m.apply(version, old(db.schema)).value)
    {
      InUpTo(|db.versions|, version);
      if fault(version, BeginStmt) || fault(version, ScriptStmt) { return false; }
      var schema := m.apply(version, db.schema);
      if schema.None? || fault(version, RecordStmt) || version in db.versions { return false; }
      if fault(version, CheckStmt) || !m.fkOk(schema.value) || fault(version, CommitStmt) { return false; }
      db := Db(schema.value, db.versions + [version]);
      return true;
    }

    /** One turn of the loop: foreign keys off, the transaction, foreign keys on. */
    method Migrate(version: nat, fault: (nat, Statement) -> bool) returns (ok: bool)
      requires Consistent(m, db) && version == |db.versions| + 1 <= COUNT
      modifies this
      ensures Consistent(m, db)
      ensures db.versions == old(db.versions) || db.versions == old(db.versions) + [version]
      ensures ok ==> foreignKeys && db.versions == old(db.versions) + [version]
      ensures Sound(m) && (forall v, st :: !fault(v, st)) ==> ok
    {
      if fault(version, PragmaOff) { return false; }
      foreignKeys := false;
      assert Fold(m, version) == m.apply(version, db.schema);
      assert Sound(m) ==> Fold(m, version).Some? && m.fkOk(Fold(m, version).value);
      hide Consistent, Sound;
      var applied := ApplyOne(version, fault);
      if fault(version, PragmaOn) { return false; }
      foreignKeys := true;
      return applied;
    }

    /** `ensure_schema`. */
    method EnsureSchema(fault: (nat, Statement) -> bool) returns (ok: bool)
      requires Consistent(m, db) && foreignKeys
      modifies this
      ensures Consistent(m, db)
      ensures old(db.versions) <= db.versions
      ensures ok ==> |db.versions| == COUNT && foreignKeys
      // without errors all scripts run
      ensures Sound(m) && (forall v, st :: !fault(v, st)) ==> ok
      // running it again changes nothing
      ensures |old(db.versions)| == COUNT ==> db == old(db) && ok == !fault(0, ReadMax)
    {
      if fault(0, ReadMax) { return false; }
      MaxUpTo(|db.versions|);
      var current := Max(db.versions);
      assert current == |db.versions| <= COUNT;
      hide Consistent, Sound, Max;
      var i := 0;
      while i < COUNT
        invariant 0 <= i <= COUNT
        invariant Consistent(m, db) && foreignKeys
        invariant old(db.versions) <= db.versions
        invariant if i <= current then db == old(db) else |db.versions| == i
      {
        if i + 1 > current {
          var applied := Migrate(i + 1, fault);
          if !applied { return false; }
        }
        i := i + 1;
      }
      return true;
    }
  }
}
