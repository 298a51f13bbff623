/** The migration runner and its ledger table. */
module Ledger {
  import opened Prelude

  type Version = int
  type Checksum = string

  const I64_MAX := 0x7FFF_FFFF_FFFF_FFFF
  const MIGRATION_MAX_ATTEMPTS := 5

  datatype Migration = Migration(version: Version, checksum: Checksum, down: bool, noTx: bool)

  datatype Row = Row(success: bool, checksum: Checksum)

  /** How far a migration got before an error: a lost reply or a failed cleanup can follow the work itself. */
  datatype Stage = BeforeCommit | AfterExecution | AfterRecord

  datatype Failure = Failure(stage: Stage, deadlock: bool)

  type Failures = map<Version, Failure>

  /** The ledger, the host's sqlx ledger, and the migrations whose SQL has taken effect, in order. */
  datatype Db = Db(ledger: Option<map<Version, Row>>, sqlx: Option<map<Version, Row>>, executed: seq<Version>)

  datatype MigrateError =
    | Dirty(version: Version)
    | VersionMissing(version: Version)
    | VersionMismatch(version: Version)
    | ExecuteMigration(version: Version, deadlock: bool)

  /** Up migrations come in strictly increasing version order, as the embedded set is built. */
  predicate Embedded(ms: seq<Migration>) {
    (forall i :: 0 <= i < |ms| ==> ms[i].version <= I64_MAX)
    && forall i, j :: 0 <= i < j < |ms| && !ms[i].down && !ms[j].down ==> ms[i].version < ms[j].version
  }

  function Versions(ms: seq<Migration>): set<Version> {
    set i | 0 <= i < |ms| :: ms[i].version
  }

  function Rows(db: Db): map<Version, Row> {
    if db.ledger.Some? then db.ledger.value else map[]
  }

  function EnsureTable(db: Db): Db {
    if db.ledger.None? then db.(ledger := Some(map[])) else db
  }

  predicate UpWith(ms: seq<Migration>, v: Version, c: Checksum) {
    exists i :: 0 <= i < |ms| && !ms[i].down && ms[i].version == v && ms[i].checksum == c
  }

  /** Rows of the host's ledger are taken over only into an empty ledger and only when version and checksum match. */
  function Backfill(db: Db, ms: seq<Migration>): Db
    requires db.ledger.Some?
  {
    if db.ledger.value != map[] || db.sqlx.None? then db
    else
      var host := db.sqlx.value;
      db.(ledger := Some(map v | v in host && UpWith(ms, v, host[v].checksum) :: host[v]))
  }

  function Prepared(db: Db, ms: seq<Migration>): Db {
    Backfill(EnsureTable(db), ms)
  }

  predicate HasDirty(db: Db) {
    exists v :: v in Rows(db) && !Rows(db)[v].success
  }

  predicate HasUnknown(db: Db, ms: seq<Migration>) {
    exists v :: v in Rows(db) && v !in Versions(ms)
  }

  predicate LeastDirty(db: Db, v: Version) {
    v in Rows(db) && !Rows(db)[v].success && forall u :: u in Rows(db) && !Rows(db)[u].success ==> v <= u
  }

  lemma LeastExists(s: set<int>) returns (least: int)
    requires s != {}
    ensures least in s && forall u :: u in s ==> least <= u
  {
    var x := Member(s);
    least := x;
    if s - {x} != {} {
      var y := LeastExists(s - {x});
      if y < x { least := y; }
    }
    assert forall u :: u in s ==> u == x || u in s - {x};
  }

  /** Execute one migration and record it. */
  function Record(db: Db, m: Migration): Db {
    db.(ledger := Some(Rows(db)[m.version := Row(true, m.checksum)]), executed := db.executed + [m.version])
  }

  /**
   * What an error leaves behind. A transaction rolls back; a migration outside one has already taken effect once
   * its SQL has run. After the record both are there.
   */
  function Interrupted(db: Db, m: Migration, stage: Stage): Db {
    match stage
    case BeforeCommit => db
    case AfterExecution => if m.noTx then db.(executed := db.executed + [m.version]) else db
    case AfterRecord => Record(db, m)
  }

  predicate Considered(m: Migration, max: Version) {
    !m.down && m.version <= max
  }

  /** The apply loop; `seen` is the ledger as it was read before it, `fails` says which migration fails, how far on, and how. */
  function ApplyFrom(db: Db, seen: map<Version, Row>, ms: seq<Migration>, max: Version, fails: Failures)
    : (Db, Option<MigrateError>)
    decreases |ms|
  {
    if ms == [] then (db, None)
    else
      var m := ms[0];
      if !Considered(m, max) then ApplyFrom(db, seen, ms[1..], max, fails)
      else if m.version in seen then
        if seen[m.version].checksum != m.checksum then (db, Some(VersionMismatch(m.version)))
        else ApplyFrom(db, seen, ms[1..], max, fails)
      else if m.version in fails then
        (Interrupted(db, m, fails[m.version].stage), Some(ExecuteMigration(m.version, fails[m.version].deadlock)))
      else ApplyFrom(Record(db, m), seen, ms[1..], max, fails)
  }

  /** What a run through `max` does to the database. */
  function RunDb(db: Db, ms: seq<Migration>, max: Version, fails: Failures): Db {
    var p := Prepared(db, ms);
    if HasDirty(p) || HasUnknown(p, ms) then p else ApplyFrom(p, Rows(p), ms, max, fails).0
  }

  /** Which answers it may give; an unknown version is reported in whatever order a hash map yields. */
  predicate RunAnswers(db: Db, ms: seq<Migration>, max: Version, fails: Failures, r: Option<MigrateError>) {
    var p := Prepared(db, ms);
    if HasDirty(p) then r.Some? && r.value.Dirty? && LeastDirty(p, r.value.version)
    else if HasUnknown(p, ms) then
      r.Some? && r.value.VersionMissing? && r.value.version in Rows(p) && r.value.version !in Versions(ms)
    else r == ApplyFrom(p, Rows(p), ms, max, fails).1
  }

  /** The read-only check that lets a caller skip the locked run. */
  predicate Current(db: Db, ms: seq<Migration>) {
    db.ledger.Some? && !HasDirty(db) && !HasUnknown(db, ms)
    && forall i :: 0 <= i < |ms| && !ms[i].down ==> Rows(db).Keys >= {ms[i].version} && Rows(db)[ms[i].version].checksum == ms[i].checksum
  }

  // ---- the runner ----

  class MigrationRunner {
    var ledger: Option<map<Version, Row>>
    var sqlx: Option<map<Version, Row>>
    var executed: seq<Version>

    function State(): Db
      reads this
    {
      Db(ledger, sqlx, executed)
    }

    constructor (db: Db)
      ensures State() == db
    {
      ledger, sqlx, executed := db.ledger, db.sqlx, db.executed;
    }

    method EnsureMigrationsTable()
      modifies `ledger
      ensures State() == EnsureTable(old(State()))
    {
      if ledger.None? { ledger := Some(map[]); }
    }

    method BackfillFromSqlxMigrations(ms: seq<Migration>)
      requires ledger.Some?
      modifies `ledger
      ensures State() == Backfill(old(State()), ms)
    {
      if ledger.value != map[] || sqlx.None? { return; }
      var host := sqlx.value;
      ledger := Some(map v | v in host && UpWith(ms, v, host[v].checksum) :: host[v]);
    }

    method MigrationsAreCurrent(ms: seq<Migration>) returns (current: bool)
      ensures current == Current(State(), ms)
    {
      if ledger.None? { return false; }
      if HasDirty(State()) { return false; }
      if HasUnknown(State(), ms) { return false; }
      for i := 0 to |ms|
        invariant forall k :: 0 <= k < i && !ms[k].down ==>
          ms[k].version in ledger.value && ledger.value[ms[k].version].checksum == ms[k].checksum
      {
        if !ms[i].down && !(ms[i].version in ledger.value && ledger.value[ms[i].version].checksum == ms[i].checksum) {
          return false;
        }
      }
      return true;
    }

    /** Outside a transaction each statement commits by itself; inside one execution and record commit together. */
    method ApplyMigration(m: Migration, fails: Failures) returns (e: Option<MigrateError>)
      requires ledger.Some?
      modifies `ledger, `executed
      ensures e == if m.version in fails then Some(ExecuteMigration(m.version, fails[m.version].deadlock)) else None
      ensures State() == if e.Some? then Interrupted(old(State()), m, fails[m.version].stage) else Record(old(State()), m)
    {
      var failure := if m.version in fails then Some(fails[m.version]) else None;
      var error := if failure.Some? then Some(ExecuteMigration(m.version, failure.value.deadlock)) else None;
      if failure.Some? && failure.value.stage.BeforeCommit? { return error; }
      var begun := executed;
      executed := executed + [m.version];
      if failure.Some? && failure.value.stage.AfterExecution? {
        if !m.noTx { executed := begun; }
        return error;
      }
      ledger := Some(ledger.value[m.version := Row(true, m.checksum)]);
      return error;
    }

    method RunInnerThrough(ms: seq<Migration>, max: Version, fails: Failures) returns (e: Option<MigrateError>)
      modifies this
      ensures State() == RunDb(old(State()), ms, max, fails)
      ensures RunAnswers(old(State()), ms, max, fails, e)
    {
      EnsureMigrationsTable();
      BackfillFromSqlxMigrations(ms);
      if HasDirty(State()) {
        ghost var dirty: set<int> := set u | u in ledger.value && !ledger.value[u].success;
        var bad: Version :| bad in ledger.value && !ledger.value[bad].success;
        assert bad in dirty;
        ghost var least := LeastExists(dirty);
        assert forall u :: u in ledger.value && !ledger.value[u].success ==> u in dirty;
        var v: Version :| v in ledger.value && LeastDirty(State(), v);
        return Some(Dirty(v));
      }
      var seen := ledger.value;
      if HasUnknown(State(), ms) {
        var v :| v in seen && v !in Versions(ms);
        return Some(VersionMissing(v));
      }
      ghost var p := State();
      for i := 0 to |ms|
        invariant ledger.Some?
        invariant ApplyFrom(State(), seen, ms[i..], max, fails) == ApplyFrom(p, seen, ms, max, fails)
      {
        assert ms[i..][1..] == ms[i + 1..];
        if ms[i].down || ms[i].version > max { continue; }
        if ms[i].version in seen {
          if seen[ms[i].version].checksum != ms[i].checksum { return Some(VersionMismatch(ms[i].version)); }
        } else {
          e := ApplyMigration(ms[i], fails);
          if e.Some? { return e; }
        }
      }
      return None;
    }

    method RunInner(ms: seq<Migration>, fails: Failures) returns (e: Option<MigrateError>)
      modifies this
      ensures State() == InnerDb(old(State()), ms, fails)
      ensures InnerAnswers(old(State()), ms, fails, e)
    {
      var current := MigrationsAreCurrent(ms);
      if current { return None; }
      e := RunInnerThrough(ms, I64_MAX, fails);
    }

    /** Retry a deadlocked run, up to the attempt limit; `script` gives the failures of each attempt. */
    method RunMigrations(ms: seq<Migration>, script: seq<Failures>) returns (e: Option<MigrateError>, attempts: nat)
      requires |script| >= MIGRATION_MAX_ATTEMPTS
      modifies this
      ensures attempts <= 5 && State() == AttemptsDb(old(State()), ms, script[..attempts])
      ensures attempts == 0 ==> e.None? && Current(old(State()), ms)
      ensures attempts > 0 ==> InnerAnswers(AttemptsDb(old(State()), ms, script[..attempts - 1]), ms, script[attempts - 1], e)
      ensures attempts > 0 ==> FirstDeadlocked(old(State()), ms, script, attempts - 1)
      ensures e.Some? && e.value.ExecuteMigration? && e.value.deadlock ==> attempts == 5
    {
      var current := MigrationsAreCurrent(ms);
      if current { return None, 0; }
      ghost var start := State();
      attempts := 1;
      while true
        invariant 1 <= attempts <= MIGRATION_MAX_ATTEMPTS
        invariant State() == AttemptsDb(start, ms, script[..attempts - 1])
        invariant FirstDeadlocked(start, ms, script, attempts - 1)
        decreases MIGRATION_MAX_ATTEMPTS - attempts
      {
        assert script[..attempts][..attempts - 1] == script[..attempts - 1];
        e := RunInner(ms, script[attempts - 1]);
        if e.None? { return; }
        if !(e.value.ExecuteMigration? && e.value.deadlock && attempts < MIGRATION_MAX_ATTEMPTS) { return; }
        OneMoreDeadlock(start, ms, script, attempts - 1, e);
        attempts := attempts + 1;
      }
    }
  }

  function InnerDb(db: Db, ms: seq<Migration>, fails: Failures): Db {
    if Current(db, ms) then db else RunDb(db, ms, I64_MAX, fails)
  }

  predicate InnerAnswers(db: Db, ms: seq<Migration>, fails: Failures, e: Option<MigrateError>) {
    if Current(db, ms) then e.None? else RunAnswers(db, ms, I64_MAX, fails, e)
  }

  /** The k-th attempt fails with a deadlock and can answer nothing else. */
  ghost predicate Deadlocked(db: Db, ms: seq<Migration>, script: seq<Failures>, k: nat)
    requires k < |script|
  {
    exists v :: forall e :: InnerAnswers(AttemptsDb(db, ms, script[..k]), ms, script[k], e) <==> e == Some(ExecuteMigration(v, true))
  }

  /** Each of the first n attempts fails with a deadlock. */
  ghost predicate FirstDeadlocked(db: Db, ms: seq<Migration>, script: seq<Failures>, n: nat) {
    n <= |script| && forall k :: 0 <= k < n ==> Deadlocked(db, ms, script, k)
  }

  lemma OneMoreDeadlock(db: Db, ms: seq<Migration>, script: seq<Failures>, n: nat, e: Option<MigrateError>)
    requires n < |script| && FirstDeadlocked(db, ms, script, n)
    requires InnerAnswers(AttemptsDb(db, ms, script[..n]), ms, script[n], e)
    requires e.Some? && e.value.ExecuteMigration? && e.value.deadlock
    ensures FirstDeadlocked(db, ms, script, n + 1)
  {
    var now := AttemptsDb(db, ms, script[..n]);
    assert forall a :: InnerAnswers(now, ms, script[n], a) <==> a == Some(ExecuteMigration(e.value.version, true));
    assert Deadlocked(db, ms, script, n);
  }

  function AttemptsDb(db: Db, ms: seq<Migration>, script: seq<Failures>): Db {
    if script == [] then db
    else InnerDb(AttemptsDb(db, ms, script[..|script| - 1]), ms, script[|script| - 1])
  }

  // ---- the ledger after the apply loop ----

  /** Whether the loop reaches and records version v. */
  predicate Recorded(seen: map<Version, Row>, ms: seq<Migration>, max: Version, v: Version, c: Checksum) {
    exists i :: 0 <= i < |ms| && Considered(ms[i], max) && ms[i].version == v && ms[i].checksum == c && v !in seen
  }

  lemma EmbeddedTail(ms: seq<Migration>)
    requires Embedded(ms) && ms != []
    ensures Embedded(ms[1..])
  {
    assert forall i :: 0 <= i < |ms| - 1 ==> ms[1..][i] == ms[i + 1];
  }

  predicate Applies(seen: map<Version, Row>, ms: seq<Migration>, max: Version, v: Version) {
    exists i :: 0 <= i < |ms| && Considered(ms[i], max) && ms[i].version == v && v !in seen
  }

  lemma AppliesTail(seen: map<Version, Row>, ms: seq<Migration>, max: Version, v: Version, c: Checksum)
    requires ms != []
    ensures var first := Considered(ms[0], max) && ms[0].version == v && v !in seen;
      (Applies(seen, ms, max, v) <==> first || Applies(seen, ms[1..], max, v))
      && (Recorded(seen, ms, max, v, c) <==> (first && ms[0].checksum == c) || Recorded(seen, ms[1..], max, v, c))
  {
    var tail := ms[1..];
    assert forall i :: 0 <= i < |tail| ==> tail[i] == ms[i + 1];
    if i :| 0 <= i < |tail| && Considered(tail[i], max) && tail[i].version == v && v !in seen { assert Considered(ms[i + 1], max); }
    if i :| 0 <= i < |tail| && Considered(tail[i], max) && tail[i].version == v && tail[i].checksum == c && v !in seen {
      assert Considered(ms[i + 1], max) && ms[i + 1].checksum == c;
    }
    if i :| 0 <= i < |ms| && Considered(ms[i], max) && ms[i].version == v && v !in seen { assert i > 0 ==> tail[i - 1] == ms[i]; }
    if i :| 0 <= i < |ms| && Considered(ms[i], max) && ms[i].version == v && ms[i].checksum == c && v !in seen {
      assert i > 0 ==> tail[i - 1] == ms[i];
    }
  }

  lemma {:induction false} LedgerAfter(db: Db, seen: map<Version, Row>, ms: seq<Migration>, max: Version, fails: Failures, v: Version)
    requires Embedded(ms) && db.ledger.Some? && ApplyFrom(db, seen, ms, max, fails).1.None?
    ensures var a := ApplyFrom(db, seen, ms, max, fails).0;
      a.ledger.Some? && a.sqlx == db.sqlx
      && (if Applies(seen, ms, max, v)
          then v in Rows(a) && Rows(a)[v].success && Recorded(seen, ms, max, v, Rows(a)[v].checksum)
          else (v in Rows(a) <==> v in Rows(db)) && (v in Rows(a) ==> Rows(a)[v] == Rows(db)[v]))
    decreases |ms|
  {
    if ms != [] {
      EmbeddedTail(ms);
      var m, tail := ms[0], ms[1..];
      LedgerAfter(if Considered(m, max) && m.version !in seen then Record(db, m) else db, seen, tail, max, fails, v);
      var a := ApplyFrom(db, seen, ms, max, fails).0;
      AppliesTail(seen, ms, max, v, if v in Rows(a) then Rows(a)[v].checksum else m.checksum);
    }
  }

  /** Every considered migration found in the ledger had its own checksum there. */
  lemma {:induction false} SeenMatch(db: Db, seen: map<Version, Row>, ms: seq<Migration>, max: Version, fails: Failures, i: nat)
    requires ApplyFrom(db, seen, ms, max, fails).1.None?
    requires i < |ms| && Considered(ms[i], max) && ms[i].version in seen
    ensures seen[ms[i].version].checksum == ms[i].checksum
    decreases |ms|
  {
    if i > 0 {
      var next := if Considered(ms[0], max) && ms[0].version !in seen then Record(db, ms[0]) else db;
      SeenMatch(next, seen, ms[1..], max, fails, i - 1);
    }
  }

  /** A successful full run leaves the database current. */
  lemma SuccessIsCurrent(db: Db, ms: seq<Migration>, fails: Failures, r: Option<MigrateError>)
    requires Embedded(ms) && RunAnswers(db, ms, I64_MAX, fails, r) && r.None?
    ensures Current(RunDb(db, ms, I64_MAX, fails), ms)
  {
    var p := Prepared(db, ms);
    var a := RunDb(db, ms, I64_MAX, fails);
    forall v ensures v in Rows(a) ==> Rows(a)[v].success && v in Versions(ms) {
      LedgerAfter(p, Rows(p), ms, I64_MAX, fails, v);
    }
    LedgerAfter(p, Rows(p), ms, I64_MAX, fails, 0);
    forall i | 0 <= i < |ms| && !ms[i].down
      ensures ms[i].version in Rows(a) && Rows(a)[ms[i].version].checksum == ms[i].checksum
    {
      LedgerAfter(p, Rows(p), ms, I64_MAX, fails, ms[i].version);
      if ms[i].version in Rows(p) { SeenMatch(p, Rows(p), ms, I64_MAX, fails, i); }
    }
  }

  lemma {:induction false} CurrentAppliesNothing(db: Db, seen: map<Version, Row>, ms: seq<Migration>, max: Version, fails: Failures)
    requires forall i :: 0 <= i < |ms| && !ms[i].down ==> ms[i].version in seen && seen[ms[i].version].checksum == ms[i].checksum
    ensures ApplyFrom(db, seen, ms, max, fails) == (db, None)
  {
    if ms != [] { CurrentAppliesNothing(db, seen, ms[1..], max, fails); }
  }

  lemma {:induction false} NothingAppliedMeansSeen(db: Db, seen: map<Version, Row>, ms: seq<Migration>, max: Version, fails: Failures, i: nat)
    requires ApplyFrom(db, seen, ms, max, fails) == (db, None) && i < |ms| && Considered(ms[i], max)
    ensures ms[i].version in seen && seen[ms[i].version].checksum == ms[i].checksum
    decreases |ms|
  {
    ExecutedGrows(db, seen, ms, max, fails);
    if Considered(ms[0], max) && ms[0].version !in seen {
      ExecutedGrows(Record(db, ms[0]), seen, ms[1..], max, fails);
    } else if i > 0 {
      NothingAppliedMeansSeen(db, seen, ms[1..], max, fails, i - 1);
    }
  }

  lemma {:induction false} ExecutedGrows(db: Db, seen: map<Version, Row>, ms: seq<Migration>, max: Version, fails: Failures)
    ensures |ApplyFrom(db, seen, ms, max, fails).0.executed| >= |db.executed|
    decreases |ms|
  {
    if ms != [] {
      ExecutedGrows(db, seen, ms[1..], max, fails);
      ExecutedGrows(Record(db, ms[0]), seen, ms[1..], max, fails);
    }
  }

  /** "Current" means exactly that the ledger exists and a full run would succeed and change nothing at all. */
  lemma CurrentIffRunIsANoOp(db: Db, ms: seq<Migration>, fails: Failures)
    requires Embedded(ms)
    ensures Current(db, ms)
      <==> (db.ledger.Some? && RunAnswers(db, ms, I64_MAX, fails, None) && RunDb(db, ms, I64_MAX, fails) == db)
  {
    if Current(db, ms) {
      assert Prepared(db, ms) == db by {
        if db.ledger.value == map[] && db.sqlx.Some? {
          assert forall i :: 0 <= i < |ms| ==> ms[i].down;
          assert Backfill(db, ms).ledger.value == map[];
        }
      }
      CurrentAppliesNothing(db, Rows(db), ms, I64_MAX, fails);
    } else if db.ledger.Some? && RunAnswers(db, ms, I64_MAX, fails, None) && RunDb(db, ms, I64_MAX, fails) == db {
      SuccessIsCurrent(db, ms, fails, None);
    }
  }

  /** A second full run applies nothing and succeeds. */
  lemma SecondRunAppliesNothing(db: Db, ms: seq<Migration>, fails: Failures, again: Failures, r: Option<MigrateError>)
    requires Embedded(ms) && RunAnswers(db, ms, I64_MAX, fails, r) && r.None?
    ensures var a := RunDb(db, ms, I64_MAX, fails);
      RunDb(a, ms, I64_MAX, again) == a && RunAnswers(a, ms, I64_MAX, again, None)
  {
    SuccessIsCurrent(db, ms, fails, r);
    CurrentIffRunIsANoOp(RunDb(db, ms, I64_MAX, fails), ms, again);
  }

  /**
   * Before any migration is executed a run is refused exactly when the prepared ledger holds an unsuccessful row, and
   * then the smallest such version is named, or else a version no migration has, and then one such is named.
   */
  lemma RefusedBeforeAnyApply(db: Db, ms: seq<Migration>, max: Version, fails: Failures, r: Option<MigrateError>)
    requires RunAnswers(db, ms, max, fails, r)
    ensures var rows := Rows(Prepared(db, ms));
      var dirty, unknown := exists v :: v in rows && !rows[v].success,
                            exists v :: v in rows && forall i :: 0 <= i < |ms| ==> ms[i].version != v;
      ((r.Some? && r.value.Dirty?) <==> dirty)
      && ((r.Some? && r.value.VersionMissing?) <==> !dirty && unknown)
      && (r.Some? && r.value.Dirty? ==> r.value.version in rows && !rows[r.value.version].success)
      && (r.Some? && r.value.Dirty? ==> forall v :: v in rows && !rows[v].success ==> r.value.version <= v)
      && (r.Some? && r.value.VersionMissing? ==> r.value.version in rows)
      && (r.Some? && r.value.VersionMissing? ==> forall i :: 0 <= i < |ms| ==> ms[i].version != r.value.version)
    ensures r.Some? && (r.value.Dirty? || r.value.VersionMissing?) ==>
      RunDb(db, ms, max, fails) == Prepared(db, ms) && RunDb(db, ms, max, fails).executed == db.executed
  {
    var p := Prepared(db, ms);
    forall v ensures v in Versions(ms) <==> exists i :: 0 <= i < |ms| && ms[i].version == v {}
    if !HasDirty(p) && !HasUnknown(p, ms) { LoopErrors(p, Rows(p), ms, max, fails); }
  }

  lemma {:induction false} LoopErrors(db: Db, seen: map<Version, Row>, ms: seq<Migration>, max: Version, fails: Failures)
    ensures var r := ApplyFrom(db, seen, ms, max, fails).1;
      r.Some? ==> r.value.VersionMismatch? || r.value.ExecuteMigration?
    decreases |ms|
  {
    if ms != [] {
      LoopErrors(db, seen, ms[1..], max, fails);
      LoopErrors(Record(db, ms[0]), seen, ms[1..], max, fails);
    }
  }

  // ---- stopping half-way ----

  ghost predicate SameAbove(s: map<Version, Row>, t: map<Version, Row>, a: Version) {
    forall v :: v > a ==> ((v in s <==> v in t) && (v in s && v in t ==> s[v].checksum == t[v].checksum))
  }

  lemma {:induction false} OnlyAboveMatters(db: Db, s: map<Version, Row>, t: map<Version, Row>, ms: seq<Migration>, a: Version, b: Version, fails: Failures)
    requires SameAbove(s, t, a) && forall i :: 0 <= i < |ms| && !ms[i].down ==> ms[i].version > a
    ensures ApplyFrom(db, s, ms, b, fails) == ApplyFrom(db, t, ms, b, fails)
    decreases |ms|
  {
    if ms != [] {
      OnlyAboveMatters(db, s, t, ms[1..], a, b, fails);
      OnlyAboveMatters(Record(db, ms[0]), s, t, ms[1..], a, b, fails);
    }
  }

  lemma {:induction false} NothingBelow(db: Db, seen: map<Version, Row>, ms: seq<Migration>, a: Version, fails: Failures)
    requires forall i :: 0 <= i < |ms| && !ms[i].down ==> ms[i].version > a
    ensures ApplyFrom(db, seen, ms, a, fails) == (db, None)
  {
    if ms != [] { NothingBelow(db, seen, ms[1..], a, fails); }
  }

  /** The second ledger read: below `a` everything considered is there with its own checksum. */
  predicate DoneBelow(later: map<Version, Row>, ms: seq<Migration>, a: Version) {
    forall i :: 0 <= i < |ms| && Considered(ms[i], a) ==> ms[i].version in later && later[ms[i].version].checksum == ms[i].checksum
  }

  lemma {:induction false} LoopResumes(db: Db, seen: map<Version, Row>, later: map<Version, Row>, ms: seq<Migration>,
                                       a: Version, b: Version, fails: Failures)
    requires Embedded(ms) && a <= b && ApplyFrom(db, seen, ms, a, fails).1.None?
    requires DoneBelow(later, ms, a) && SameAbove(seen, later, a)
    ensures ApplyFrom(ApplyFrom(db, seen, ms, a, fails).0, later, ms, b, fails) == ApplyFrom(db, seen, ms, b, fails)
    decreases |ms|
  {
    if ms != [] {
      var m, tail := ms[0], ms[1..];
      EmbeddedTail(ms);
      assert DoneBelow(later, tail, a) by { assert forall i :: 0 <= i < |tail| ==> tail[i] == ms[i + 1]; }
      if m.down {
        LoopResumes(db, seen, later, tail, a, b, fails);
      } else if m.version <= a {
        LoopResumes(if m.version in seen then db else Record(db, m), seen, later, tail, a, b, fails);
      } else {
        NothingBelow(db, seen, ms, a, fails);
        OnlyAboveMatters(db, seen, later, ms, a, b, fails);
      }
    }
  }

  lemma {:induction false} LoopFailsAlike(db: Db, seen: map<Version, Row>, ms: seq<Migration>, a: Version, b: Version, fails: Failures)
    requires Embedded(ms) && a <= b && ApplyFrom(db, seen, ms, a, fails).1.Some?
    ensures ApplyFrom(db, seen, ms, b, fails) == ApplyFrom(db, seen, ms, a, fails)
    decreases |ms|
  {
    var m, tail := ms[0], ms[1..];
    EmbeddedTail(ms);
    if m.down {
      LoopFailsAlike(db, seen, tail, a, b, fails);
    } else if m.version > a {
      NothingBelow(db, seen, ms, a, fails);
      assert false;
    } else if m.version in seen {
      if seen[m.version].checksum == m.checksum { LoopFailsAlike(db, seen, tail, a, b, fails); }
    } else if m.version !in fails {
      LoopFailsAlike(Record(db, m), seen, tail, a, b, fails);
    }
  }

  /** Running through a and then through b is running through b; a failure through a is the failure through b. */
  lemma ThroughIsResumable(db: Db, ms: seq<Migration>, a: Version, b: Version, fails: Failures, r: Option<MigrateError>)
    requires Embedded(ms) && a <= b && RunAnswers(db, ms, a, fails, r)
    ensures var mid := RunDb(db, ms, a, fails);
      if r.None? then
        RunDb(mid, ms, b, fails) == RunDb(db, ms, b, fails)
        && forall e :: RunAnswers(mid, ms, b, fails, e) <==> RunAnswers(db, ms, b, fails, e)
      else RunDb(db, ms, b, fails) == mid && RunAnswers(db, ms, b, fails, r)
  {
    var p := Prepared(db, ms);
    if r.Some? {
      if !HasDirty(p) && !HasUnknown(p, ms) { LoopFailsAlike(p, Rows(p), ms, a, b, fails); }
    } else {
      var mid := RunDb(db, ms, a, fails);
      PreparedOnce(db, ms, a, fails);
      LoopResumes(p, Rows(p), Rows(mid), ms, a, b, fails);
    }
  }

  /** After a successful run through a the preparation finds nothing to do and nothing to refuse. */
  lemma PreparedOnce(db: Db, ms: seq<Migration>, a: Version, fails: Failures)
    requires Embedded(ms) && RunAnswers(db, ms, a, fails, None)
    ensures var p, mid := Prepared(db, ms), RunDb(db, ms, a, fails);
      Prepared(mid, ms) == mid && !HasDirty(mid) && !HasUnknown(mid, ms)
      && DoneBelow(Rows(mid), ms, a) && SameAbove(Rows(p), Rows(mid), a)
  {
    var p, mid := Prepared(db, ms), RunDb(db, ms, a, fails);
    LedgerAfter(p, Rows(p), ms, a, fails, 0);
    forall v ensures v in Rows(mid) ==> Rows(mid)[v].success && v in Versions(ms) {
      LedgerAfter(p, Rows(p), ms, a, fails, v);
    }
    forall v ensures v in Rows(p) ==> v in Rows(mid) {
      LedgerAfter(p, Rows(p), ms, a, fails, v);
    }
    forall v | v > a ensures (v in Rows(p) <==> v in Rows(mid)) && (v in Rows(p) && v in Rows(mid) ==> Rows(p)[v].checksum == Rows(mid)[v].checksum) {
      LedgerAfter(p, Rows(p), ms, a, fails, v);
    }
    forall i | 0 <= i < |ms| && Considered(ms[i], a)
      ensures ms[i].version in Rows(mid) && Rows(mid)[ms[i].version].checksum == ms[i].checksum
    {
      LedgerAfter(p, Rows(p), ms, a, fails, ms[i].version);
      if ms[i].version in Rows(p) { SeenMatch(p, Rows(p), ms, a, fails, i); }
    }
    if Rows(mid) == map[] && mid.sqlx.Some? {
      assert Rows(p) == map[];
      assert Backfill(mid, ms).ledger.value == map[];
    }
  }

  // ---- how often a migration runs ----

  predicate Passes(m: Migration, seen: map<Version, Row>, max: Version, fails: Failures) {
    Considered(m, max) ==> if m.version in seen then seen[m.version].checksum == m.checksum else m.version !in fails
  }

  /** The loop gets to the i-th migration and finds it unrecorded. */
  predicate Reaches(seen: map<Version, Row>, ms: seq<Migration>, max: Version, fails: Failures, i: nat) {
    i < |ms| && Considered(ms[i], max) && ms[i].version !in seen && forall j :: 0 <= j < i ==> Passes(ms[j], seen, max, fails)
  }

  /** The migration's own SQL takes effect, whether or not an error follows. */
  predicate TakesEffect(m: Migration, fails: Failures) {
    m.version in fails ==> fails[m.version].stage.AfterRecord? || (fails[m.version].stage.AfterExecution? && m.noTx)
  }

  predicate LoopRuns(seen: map<Version, Row>, ms: seq<Migration>, max: Version, fails: Failures, v: Version) {
    exists i :: 0 <= i < |ms| && Reaches(seen, ms, max, fails, i) && ms[i].version == v && TakesEffect(ms[i], fails)
  }

  /** One attempt runs v: it is not current, nothing is refused, and the loop gets to v and past its SQL. */
  predicate Runs(db: Db, ms: seq<Migration>, fails: Failures, v: Version) {
    var p := Prepared(db, ms);
    !Current(db, ms) && !HasDirty(p) && !HasUnknown(p, ms) && LoopRuns(Rows(p), ms, I64_MAX, fails, v)
  }

  /** What an attempt does about v: nothing, run and record it, or run it outside a transaction and fail before the record. */
  datatype Turn = Idle | RanRecorded | RanUnrecorded

  function TurnOf(db: Db, ms: seq<Migration>, fails: Failures, v: Version): Turn {
    if !Runs(db, ms, fails, v) then Idle
    else if v in fails && fails[v].stage.AfterExecution? then RanUnrecorded else RanRecorded
  }

  /** What each attempt of the script does about v. */
  function Turns(db: Db, ms: seq<Migration>, script: seq<Failures>, v: Version): (ts: seq<Turn>)
    ensures |ts| == |script|
  {
    if script == [] then []
    else
      var front := script[..|script| - 1];
      Turns(db, ms, front, v) + [TurnOf(AttemptsDb(db, ms, front), ms, script[|script| - 1], v)]
  }

  function Times(db: Db, v: Version): nat { multiset(db.executed)[v] }

  lemma ReachesTail(seen: map<Version, Row>, ms: seq<Migration>, max: Version, fails: Failures, i: nat)
    requires ms != []
    ensures Reaches(seen, ms, max, fails, i + 1) <==> Passes(ms[0], seen, max, fails) && Reaches(seen, ms[1..], max, fails, i)
  {
    if Passes(ms[0], seen, max, fails) && Reaches(seen, ms[1..], max, fails, i) {
      forall j | 0 <= j < i + 1 ensures Passes(ms[j], seen, max, fails) {
        if j > 0 { assert ms[1..][j - 1] == ms[j]; }
      }
    }
    if Reaches(seen, ms, max, fails, i + 1) {
      forall j | 0 <= j < i ensures Passes(ms[1..][j], seen, max, fails) { assert ms[1..][j] == ms[j + 1]; }
    }
  }

  lemma LoopRunsTail(seen: map<Version, Row>, ms: seq<Migration>, max: Version, fails: Failures, v: Version)
    requires Embedded(ms) && ms != []
    ensures LoopRuns(seen, ms, max, fails, v) <==>
      (Reaches(seen, ms, max, fails, 0) && ms[0].version == v && TakesEffect(ms[0], fails))
      || (Passes(ms[0], seen, max, fails) && LoopRuns(seen, ms[1..], max, fails, v))
    ensures Considered(ms[0], max) && ms[0].version == v ==> !LoopRuns(seen, ms[1..], max, fails, v)
  {
    if i :| 0 <= i < |ms| && Reaches(seen, ms, max, fails, i) && ms[i].version == v && TakesEffect(ms[i], fails) {
      if i > 0 { ReachesTail(seen, ms, max, fails, i - 1); }
    }
    if i :| 0 <= i < |ms| - 1 && Reaches(seen, ms[1..], max, fails, i) && ms[1..][i].version == v && TakesEffect(ms[1..][i], fails) {
      ReachesTail(seen, ms, max, fails, i);
      assert ms[1..][i] == ms[i + 1];
    }
  }

  lemma {:induction false} LoopTimes(db: Db, seen: map<Version, Row>, ms: seq<Migration>, max: Version, fails: Failures, v: Version)
    requires Embedded(ms)
    ensures Times(ApplyFrom(db, seen, ms, max, fails).0, v)
         == Times(db, v) + if LoopRuns(seen, ms, max, fails, v) then 1 else 0
    decreases |ms|
  {
    if ms != [] {
      EmbeddedTail(ms);
      LoopRunsTail(seen, ms, max, fails, v);
      LoopTimes(db, seen, ms[1..], max, fails, v);
      LoopTimes(Record(db, ms[0]), seen, ms[1..], max, fails, v);
    }
  }

  /** An attempt executes v once when it runs it, and otherwise not at all. */
  lemma AttemptTimes(db: Db, ms: seq<Migration>, fails: Failures, v: Version)
    requires Embedded(ms)
    ensures Times(InnerDb(db, ms, fails), v) == Times(db, v) + if Runs(db, ms, fails, v) then 1 else 0
  {
    var p := Prepared(db, ms);
    LoopTimes(p, Rows(p), ms, I64_MAX, fails, v);
  }

  lemma {:induction false} LoopKeepsRows(db: Db, seen: map<Version, Row>, ms: seq<Migration>, max: Version, fails: Failures, v: Version)
    requires v in Rows(db)
    ensures v in Rows(ApplyFrom(db, seen, ms, max, fails).0)
    decreases |ms|
  {
    if ms != [] {
      LoopKeepsRows(db, seen, ms[1..], max, fails, v);
      LoopKeepsRows(Record(db, ms[0]), seen, ms[1..], max, fails, v);
    }
  }

  lemma {:induction false} LoopRecords(db: Db, seen: map<Version, Row>, ms: seq<Migration>, max: Version, fails: Failures, v: Version)
    requires Embedded(ms) && LoopRuns(seen, ms, max, fails, v) && (v in fails ==> fails[v].stage.AfterRecord?)
    ensures v in Rows(ApplyFrom(db, seen, ms, max, fails).0)
    decreases |ms|
  {
    EmbeddedTail(ms);
    LoopRunsTail(seen, ms, max, fails, v);
    var m, tail := ms[0], ms[1..];
    if Considered(m, max) && m.version == v {
      if v !in fails { LoopKeepsRows(Record(db, m), seen, tail, max, fails, v); }
    } else {
      LoopRecords(if Considered(m, max) && m.version !in seen then Record(db, m) else db, seen, tail, max, fails, v);
    }
  }

  /** A recorded version stays recorded and does not run; one that runs is recorded unless it failed in between. */
  lemma AttemptRecords(db: Db, ms: seq<Migration>, fails: Failures, v: Version)
    requires Embedded(ms)
    ensures v in Rows(db) ==> v in Rows(InnerDb(db, ms, fails)) && !Runs(db, ms, fails, v)
    ensures Runs(db, ms, fails, v) && !(v in fails && fails[v].stage.AfterExecution?) ==> v in Rows(InnerDb(db, ms, fails))
  {
    var p := Prepared(db, ms);
    if v in Rows(db) {
      BackfillTakesOnlyOurs(db, ms, v);
      LoopKeepsRows(p, Rows(p), ms, I64_MAX, fails, v);
    }
    if Runs(db, ms, fails, v) && !(v in fails && fails[v].stage.AfterExecution?) {
      LoopRecords(p, Rows(p), ms, I64_MAX, fails, v);
    }
  }

  function CountRan(ts: seq<Turn>): nat {
    if ts == [] then 0 else CountRan(ts[..|ts| - 1]) + if ts[|ts| - 1].Idle? then 0 else 1
  }

  predicate RanTwice(ts: seq<Turn>) {
    exists i, j :: 0 <= i < j < |ts| && !ts[i].Idle? && !ts[j].Idle?
  }

  /** The migration was run and left unrecorded, and a later attempt ran it. */
  predicate RanAfterUnrecorded(ts: seq<Turn>) {
    exists i, j :: 0 <= i < j < |ts| && ts[i].RanUnrecorded? && !ts[j].Idle?
  }

  lemma {:induction false} CountRanTwice(ts: seq<Turn>)
    ensures CountRan(ts) >= 1 <==> exists i :: 0 <= i < |ts| && !ts[i].Idle?
    ensures CountRan(ts) >= 2 <==> RanTwice(ts)
  {
    if ts != [] {
      var n, front := |ts| - 1, ts[..|ts| - 1];
      CountRanTwice(front);
      if i :| 0 <= i < n && !front[i].Idle? { assert !ts[i].Idle?; }
      if i, j :| 0 <= i < j < n && !front[i].Idle? && !front[j].Idle? { assert !ts[i].Idle? && !ts[j].Idle?; }
      if i, j :| 0 <= i < j <= n && !ts[i].Idle? && !ts[j].Idle? {
        assert !front[i].Idle?;
        if j < n { assert !front[j].Idle?; }
      }
    }
  }

  /** Every execution of v is the turn of one attempt. */
  lemma {:induction false} TimesAreTurns(db: Db, ms: seq<Migration>, script: seq<Failures>, v: Version)
    requires Embedded(ms)
    ensures Times(AttemptsDb(db, ms, script), v) == Times(db, v) + CountRan(Turns(db, ms, script, v))
    decreases |script|
  {
    if script != [] {
      var front := script[..|script| - 1];
      TimesAreTurns(db, ms, front, v);
      AttemptTimes(AttemptsDb(db, ms, front), ms, script[|script| - 1], v);
      assert Turns(db, ms, script, v)[..|script| - 1] == Turns(db, ms, front, v);
    }
  }

  lemma {:induction false} StaysRecorded(db: Db, ms: seq<Migration>, script: seq<Failures>, v: Version)
    requires Embedded(ms) && (v in Rows(db) || RanRecorded in Turns(db, ms, script, v))
    ensures v in Rows(AttemptsDb(db, ms, script))
    decreases |script|
  {
    if script != [] {
      var front := script[..|script| - 1];
      AttemptRecords(AttemptsDb(db, ms, front), ms, script[|script| - 1], v);
      if v in Rows(db) || RanRecorded in Turns(db, ms, front, v) { StaysRecorded(db, ms, front, v); }
    }
  }

  /** Once v is in the ledger or has been recorded no attempt runs it. */
  lemma {:induction false} NeverAfterRecord(db: Db, ms: seq<Migration>, script: seq<Failures>, v: Version, j: nat)
    requires Embedded(ms) && j < |script| && !Turns(db, ms, script, v)[j].Idle?
    ensures v !in Rows(db) && RanRecorded !in Turns(db, ms, script, v)[..j]
    decreases |script|
  {
    var n, front := |script| - 1, script[..|script| - 1];
    var before := Turns(db, ms, front, v);
    assert Turns(db, ms, script, v)[..j] == before[..j];
    if j < n {
      NeverAfterRecord(db, ms, front, v, j);
    } else {
      AttemptRecords(AttemptsDb(db, ms, front), ms, script[n], v);
      if v in Rows(db) || RanRecorded in before { StaysRecorded(db, ms, front, v); }
    }
  }

  /**
   * Over all attempts of any number of runs a migration is executed twice if and only if some attempt ran it
   * outside a transaction without recording it and a later attempt got to it again.
   */
  lemma ExecutedTwiceExactlyWhen(db: Db, ms: seq<Migration>, script: seq<Failures>, v: Version)
    requires Embedded(ms)
    ensures Times(AttemptsDb(db, ms, script), v) >= Times(db, v) + 2 <==> RanAfterUnrecorded(Turns(db, ms, script, v))
  {
    var ts := Turns(db, ms, script, v);
    TimesAreTurns(db, ms, script, v);
    CountRanTwice(ts);
    if i, j :| 0 <= i < j < |ts| && !ts[i].Idle? && !ts[j].Idle? {
      NeverAfterRecord(db, ms, script, v, j);
      assert ts[..j][i] == ts[i];
    }
  }

  /** Up migrations of version v run inside a transaction. */
  predicate Transactional(ms: seq<Migration>, v: Version) {
    forall i :: 0 <= i < |ms| && ms[i].version == v ==> !ms[i].noTx
  }

  lemma {:induction false} TransactionsRecord(db: Db, ms: seq<Migration>, script: seq<Failures>, v: Version)
    requires Transactional(ms, v)
    ensures RanUnrecorded !in Turns(db, ms, script, v)
  {
    if script != [] { TransactionsRecord(db, ms, script[..|script| - 1], v); }
  }

  /** Over all attempts, failed ones and lost replies included, a transactional migration is executed at most once. */
  lemma TransactionalRunsOnce(db: Db, ms: seq<Migration>, script: seq<Failures>, v: Version)
    requires Embedded(ms) && Transactional(ms, v)
    ensures Times(AttemptsDb(db, ms, script), v) <= Times(db, v) + 1
  {
    ExecutedTwiceExactlyWhen(db, ms, script, v);
    TransactionsRecord(db, ms, script, v);
  }

  /** A version the ledger holds is never executed again, transactional or not. */
  lemma RecordedNeverRuns(db: Db, ms: seq<Migration>, script: seq<Failures>, v: Version)
    requires Embedded(ms) && v in Rows(db)
    ensures Times(AttemptsDb(db, ms, script), v) == Times(db, v) && v in Rows(AttemptsDb(db, ms, script))
  {
    var ts := Turns(db, ms, script, v);
    TimesAreTurns(db, ms, script, v);
    CountRanTwice(ts);
    StaysRecorded(db, ms, script, v);
    if j :| 0 <= j < |ts| && !ts[j].Idle? { NeverAfterRecord(db, ms, script, v, j); }
  }

  const CONCURRENT_INDEX := [Migration(46, "sum", false, true)]
  const NEW_DATABASE := Db(None, None, [])

  /** Its connection is lost in a deadlock after the index was built and before the record. */
  const UNRECORDED: Failures := map[46 := Failure(AfterExecution, true)]

  lemma BuiltUnrecorded()
    ensures InnerDb(NEW_DATABASE, CONCURRENT_INDEX, UNRECORDED) == Db(Some(map[]), None, [46])
    ensures InnerAnswers(NEW_DATABASE, CONCURRENT_INDEX, UNRECORDED, Some(ExecuteMigration(46, true)))
  {
    assert Prepared(NEW_DATABASE, CONCURRENT_INDEX) == Db(Some(map[]), None, []);
  }

  lemma BuiltAgain()
    ensures InnerDb(Db(Some(map[]), None, [46]), CONCURRENT_INDEX, map[]).executed == [46, 46]
  {
    var db := Db(Some(map[]), None, [46]);
    assert Prepared(db, CONCURRENT_INDEX) == db;
    assert CONCURRENT_INDEX[1..] == [];
    assert !Current(db, CONCURRENT_INDEX) by { assert !CONCURRENT_INDEX[0].down && 46 !in Rows(db); }
  }

  /** The retry of a run that failed between a no-transaction migration's SQL and its record executes it again. */
  lemma NoTransactionRunsTwice()
    ensures InnerAnswers(NEW_DATABASE, CONCURRENT_INDEX, UNRECORDED, Some(ExecuteMigration(46, true)))
    ensures AttemptsDb(NEW_DATABASE, CONCURRENT_INDEX, [UNRECORDED, map[]]).executed == [46, 46]
  {
    BuiltUnrecorded();
    BuiltAgain();
    var script := [UNRECORDED, map[]];
    assert script[..1] == [UNRECORDED] && script[..1][..0] == [];
    assert AttemptsDb(NEW_DATABASE, CONCURRENT_INDEX, script[..1]) == Db(Some(map[]), None, [46]);
  }

  // ---- taking over an earlier install ----

  /** Taken from the host's ledger: into an empty ledger, exactly the rows with version and checksum of an up migration. */
  lemma BackfillTakesOnlyOurs(db: Db, ms: seq<Migration>, v: Version)
    ensures (v in Rows(Prepared(db, ms)) && v !in Rows(db)) <==>
      (Rows(db) == map[] && db.sqlx.Some? && v in db.sqlx.value
       && exists i :: 0 <= i < |ms| && !ms[i].down && ms[i].version == v && ms[i].checksum == db.sqlx.value[v].checksum)
    ensures v in Rows(Prepared(db, ms)) && v !in Rows(db) ==> Rows(Prepared(db, ms))[v] == db.sqlx.value[v]
    ensures v in Rows(db) ==> v in Rows(Prepared(db, ms)) && Rows(Prepared(db, ms))[v] == Rows(db)[v]
    ensures Prepared(db, ms).executed == db.executed && Prepared(db, ms).sqlx == db.sqlx && Prepared(db, ms).ledger.Some?
  {}

  /**
   * An install that kept its ledger in the host's table upgrades without executing anything, whatever rows of the
   * host application lie beside its own.
   */
  lemma EarlierInstallIsAdopted(db: Db, ms: seq<Migration>, fails: Failures)
    requires Embedded(ms) && Rows(db) == map[] && db.sqlx.Some?
    requires forall i :: 0 <= i < |ms| && !ms[i].down ==>
      ms[i].version in db.sqlx.value && db.sqlx.value[ms[i].version] == Row(true, ms[i].checksum)
    ensures var a := RunDb(db, ms, I64_MAX, fails);
      RunAnswers(db, ms, I64_MAX, fails, None) && Current(a, ms) && a.executed == db.executed && a.sqlx == db.sqlx
  {
    var p, host := Prepared(db, ms), db.sqlx.value;
    forall i | 0 <= i < |ms| && !ms[i].down
      ensures ms[i].version in Rows(p) && Rows(p)[ms[i].version] == Row(true, ms[i].checksum)
    {
      assert UpWith(ms, ms[i].version, host[ms[i].version].checksum);
    }
    forall v | v in Rows(p) ensures Rows(p)[v].success && v in Versions(ms) {
      var i :| 0 <= i < |ms| && !ms[i].down && ms[i].version == v && ms[i].checksum == host[v].checksum;
    }
    CurrentAppliesNothing(p, Rows(p), ms, I64_MAX, fails);
  }
}
