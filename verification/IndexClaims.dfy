/** Building a recovery index concurrently: rename, recheck, create, drop and record, one statement at a time. */
module IndexClaims {
  import opened Prelude

  type Table = nat
  type Oid = nat

  /** The index's canonical name, the UUID-bearing claim names, and every other relation name. */
  datatype Name = Canonical | Claim(uuid: nat) | Other(text: string)

  /** A relation; `table` is the indexed table, None for a relation that is not an index. */
  datatype Rel = Rel(oid: Oid, table: Option<Table>)

  type Catalog = map<Name, Rel>

  /** Where an attempt stands; `made` is the index it created. */
  datatype Pc =
    | Inspect
    | ClaimName
    | Create(claim: Option<Name>)
    | DropClaim(held: Name, made: Oid)
    | ListClaims(made: Oid)
    | DropListed(names: seq<Name>, made: Oid)
    | Record(made: Oid)
    | Stopped

  datatype State = State(cat: Catalog, nextOid: Oid, pc: Pc, recorded: Option<Oid>)

  /** What an inspection of a name sees. */
  datatype Seen = Absent | ExpectedTable | Conflict

  function Inspected(cat: Catalog, n: Name, t: Table): Seen {
    if n !in cat then Absent else if cat[n].table == Some(t) then ExpectedTable else Conflict
  }

  function Renamed(cat: Catalog, from: Name, to: Name): Catalog
    requires from in cat && to !in cat && from != to
  {
    (cat - {from})[to := cat[from]]
  }

  /** Claim-named indexes on the table. */
  function ClaimsOn(cat: Catalog, t: Table): set<Name> {
    set n | n in cat && n.Claim? && cat[n].table == Some(t)
  }

  /** One transaction: rename whatever holds the canonical name, look at it again, and keep that only if it is ours. */
  function TryClaim(s: State, t: Table, uuid: nat): State {
    if Canonical !in s.cat || Claim(uuid) in s.cat then s.(pc := Stopped)
    else
      var renamed := Renamed(s.cat, Canonical, Claim(uuid));
      if Inspected(renamed, Claim(uuid), t) == ExpectedTable
      then s.(cat := renamed, pc := Create(Some(Claim(uuid))))
      else s.(pc := Stopped)
  }

  /** The listing comes in any order the server likes. */
  predicate Lists(names: seq<Name>, on: set<Name>) {
    (set n | n in names) == on && forall i, j :: 0 <= i < j < |names| ==> names[i] != names[j]
  }

  /** Claim and drop names are private to the migrators; everything else may be renamed, created or dropped. */
  datatype Event =
    | Advance(uuid: nat, listing: seq<Name>)
    | Fail(leftover: bool)
    | Restart
    | EnvRename(from: Name, to: Name)
    | EnvCreate(name: Name, table: Option<Table>)
    | EnvDrop(name: Name)

  /** The next statement of the attempt. */
  function Statement(s: State, t: Table, uuid: nat, listing: seq<Name>): State {
    match s.pc
    case Inspect =>
      (match Inspected(s.cat, Canonical, t)
       case Absent => s.(pc := Create(None))
       case ExpectedTable => s.(pc := ClaimName)
       case Conflict => s.(pc := Stopped))
    case ClaimName => TryClaim(s, t, uuid)
    case Create(claim) =>
      if Canonical in s.cat then s.(pc := Stopped)
      else s.(cat := s.cat[Canonical := Rel(s.nextOid, Some(t))], nextOid := s.nextOid + 1,
              pc := if claim.Some? then DropClaim(claim.value, s.nextOid) else ListClaims(s.nextOid))
    case DropClaim(claim, made) =>
      if claim !in s.cat then s.(pc := Stopped) else s.(cat := s.cat - {claim}, pc := ListClaims(made))
    case ListClaims(made) =>
      if Lists(listing, ClaimsOn(s.cat, t)) then s.(pc := DropListed(listing, made)) else s
    case DropListed(names, made) =>
      if names == [] then s.(pc := Record(made))
      else if names[0] !in s.cat then s.(pc := Stopped)
      else s.(cat := s.cat - {names[0]}, pc := DropListed(names[1..], made))
    case Record(made) => s.(recorded := Some(made), pc := Stopped)
    case Stopped => s
  }

  /** A failed concurrent build may leave an invalid index behind under the canonical name. */
  function Failure(s: State, t: Table, leftover: bool): State {
    if s.pc.Create? && leftover && Canonical !in s.cat
    then s.(cat := s.cat[Canonical := Rel(s.nextOid, Some(t))], nextOid := s.nextOid + 1, pc := Stopped)
    else s.(pc := Stopped)
  }

  function Step(s: State, e: Event, t: Table): State {
    match e
    case Advance(uuid, listing) => Statement(s, t, uuid, listing)
    case Fail(leftover) => Failure(s, t, leftover)
    case Restart => if s.pc.Stopped? && s.recorded.None? then s.(pc := Inspect) else s
    case EnvRename(from, to) =>
      if from in s.cat && to !in s.cat && from != to && !from.Claim? && !to.Claim?
      then s.(cat := Renamed(s.cat, from, to)) else s
    case EnvCreate(name, table) =>
      if name !in s.cat && !name.Claim?
      then s.(cat := s.cat[name := Rel(s.nextOid, table)], nextOid := s.nextOid + 1) else s
    case EnvDrop(name) => if name in s.cat && !name.Claim? then s.(cat := s.cat - {name}) else s
  }

  function Run(s: State, es: seq<Event>, t: Table): State {
    if es == [] then s else Step(Run(s, es[..|es| - 1], t), es[|es| - 1], t)
  }

  lemma ClaimAndBuild(s: State, t: Table, uuid: nat)
    requires s.pc == ClaimName && Canonical in s.cat && s.cat[Canonical].table == Some(t) && Claim(uuid) !in s.cat
    ensures var a := Statement(s, t, uuid, []);
      a == State((s.cat - {Canonical})[Claim(uuid) := s.cat[Canonical]], s.nextOid, Create(Some(Claim(uuid))), s.recorded)
      && Statement(a, t, uuid, []) == State(a.cat[Canonical := Rel(s.nextOid, Some(t))], s.nextOid + 1,
                                            DropClaim(Claim(uuid), s.nextOid), s.recorded)
  {}

  /**
   * An index of the expected table under the canonical name is replaced in three statements: it is renamed to a fresh
   * claim, a new one is built under the canonical name, and the claim is dropped before any other is looked for.
   */
  lemma RebuildReplaces(s: State, t: Table, uuid: nat)
    requires s.pc == ClaimName && Canonical in s.cat && s.cat[Canonical].table == Some(t) && Claim(uuid) !in s.cat
    ensures var next := Advance(uuid, []);
      var a := Step(Step(Step(s, next, t), next, t), next, t);
      a.cat == s.cat[Canonical := Rel(s.nextOid, Some(t))] && a.pc == ListClaims(s.nextOid) && a.nextOid == s.nextOid + 1
  {
    ClaimAndBuild(s, t, uuid);
    var made := Statement(Statement(s, t, uuid, []), t, uuid, []);
    assert made.cat - {Claim(uuid)} == s.cat[Canonical := Rel(s.nextOid, Some(t))];
  }

  /** What may happen to an attempt from outside: any statement fails, a build leaving its remains or not; it restarts. */
  lemma FailuresAreFree(s: State, t: Table)
    ensures Step(s, Fail(false), t) == State(s.cat, s.nextOid, Stopped, s.recorded)
    ensures s.pc.Create? && Canonical !in s.cat ==>
      Step(s, Fail(true), t) == State(s.cat[Canonical := Rel(s.nextOid, Some(t))], s.nextOid + 1, Stopped, s.recorded)
    ensures s.pc.Stopped? && s.recorded.None? ==> Step(s, Restart, t) == State(s.cat, s.nextOid, Inspect, None)
  {}

  /** Other sessions rename, create and drop every relation whose name is not a claim. */
  lemma OtherSessionsAreFree(s: State, t: Table, from: Name, to: Name, table: Option<Table>)
    requires !from.Claim? && !to.Claim? && from in s.cat && to !in s.cat
    ensures var a := Step(s, EnvRename(from, to), t);
      a.cat == (s.cat - {from})[to := s.cat[from]] && a.pc == s.pc && a.recorded == s.recorded
    ensures var a := Step(s, EnvCreate(to, table), t);
      a.cat == s.cat[to := Rel(s.nextOid, table)] && a.nextOid == s.nextOid + 1 && a.pc == s.pc && a.recorded == s.recorded
    ensures var a := Step(s, EnvDrop(from), t); a.cat == s.cat - {from} && a.pc == s.pc && a.recorded == s.recorded
  {}

  // ---- what every reachable state keeps ----

  predicate OidsKnown(s: State) {
    forall n :: n in s.cat ==> s.cat[n].oid < s.nextOid
  }

  predicate OidsDistinct(s: State) {
    forall m, n :: m in s.cat && n in s.cat && m != n ==> s.cat[m].oid != s.cat[n].oid
  }

  /** A held claim is an index on the expected table; listed claims cover what is left to drop. */
  predicate PcHolds(s: State, t: Table) {
    match s.pc
    case Create(claim) => claim.Some? ==> claim.value in ClaimsOn(s.cat, t)
    case DropClaim(claim, made) => claim in ClaimsOn(s.cat, t)
    case DropListed(names, made) => Lists(names, ClaimsOn(s.cat, t))
    case Record(made) => ClaimsOn(s.cat, t) == {}
    case _ => true
  }

  predicate Inv(s: State, t: Table) {
    OidsKnown(s) && OidsDistinct(s) && PcHolds(s, t)
  }

  predicate Initial(s: State) {
    OidsKnown(s) && OidsDistinct(s) && s.pc.Stopped? && s.recorded.None?
  }

  lemma OidsStep(s: State, e: Event, t: Table)
    requires OidsKnown(s) && OidsDistinct(s)
    ensures OidsKnown(Step(s, e, t)) && OidsDistinct(Step(s, e, t))
  {
    if e.Advance? { StatementOids(s, t, e.uuid, e.listing); }
  }

  lemma StatementOids(s: State, t: Table, uuid: nat, listing: seq<Name>)
    requires OidsKnown(s) && OidsDistinct(s)
    ensures var a := Statement(s, t, uuid, listing); OidsKnown(a) && OidsDistinct(a)
  {}

  lemma PcHoldsAdvance(s: State, t: Table, uuid: nat, listing: seq<Name>)
    requires Inv(s, t)
    ensures PcHolds(Statement(s, t, uuid, listing), t)
  {
    if s.pc.DropListed? && s.pc.names != [] { DropHead(s, t); }
  }

  /** Nothing but a statement of the attempt touches a claim-named relation. */
  lemma ClaimsKept(s: State, e: Event, t: Table)
    requires !e.Advance?
    ensures ClaimsOn(Step(s, e, t).cat, t) == ClaimsOn(s.cat, t)
  {
    var a := Step(s, e, t);
    assert forall n: Name :: n.Claim? ==> (n in a.cat <==> n in s.cat) && (n in a.cat ==> a.cat[n] == s.cat[n]);
  }

  lemma InvStep(s: State, e: Event, t: Table)
    requires Inv(s, t)
    ensures Inv(Step(s, e, t), t)
  {
    OidsStep(s, e, t);
    if e.Advance? { PcHoldsAdvance(s, t, e.uuid, e.listing); } else { ClaimsKept(s, e, t); }
  }

  lemma DropHead(s: State, t: Table)
    requires s.pc.DropListed? && s.pc.names != [] && PcHolds(s, t)
    ensures Lists(s.pc.names[1..], ClaimsOn(s.cat - {s.pc.names[0]}, t))
  {
    var names := s.pc.names;
    var rest, left := names[1..], ClaimsOn(s.cat - {names[0]}, t);
    forall n ensures n in rest <==> n in left {
      assert n in names <==> n in ClaimsOn(s.cat, t);
      if n in rest {
        var i :| 0 <= i < |rest| && rest[i] == n;
        assert n == names[i + 1] && n in names;
      }
      if n in left {
        assert n in names;
        var i :| 0 <= i < |names| && names[i] == n;
        assert rest[i - 1] == n;
      }
    }
  }

  lemma {:induction false} InvRun(s: State, es: seq<Event>, t: Table)
    requires Initial(s)
    ensures Inv(Run(s, es, t), t)
  {
    if es != [] {
      InvRun(s, es[..|es| - 1], t);
      InvStep(Run(s, es[..|es| - 1], t), es[|es| - 1], t);
    }
  }

  /** The relation of this name is not an index on the table. */
  predicate Foreign(cat: Catalog, n: Name, t: Table) {
    n in cat && cat[n].table != Some(t)
  }

  predicate Ours(e: Event) {
    e.Advance? || e.Fail? || e.Restart?
  }

  /**
   * With any other session acting between any two statements and any statement failing, no statement of the
   * migrator drops, renames or replaces a relation that is not an index on the expected table.
   */
  lemma ForeignRelationsUntouched(s: State, es: seq<Event>, e: Event, n: Name, t: Table)
    requires Initial(s) && Ours(e)
    requires Foreign(Run(s, es, t).cat, n, t)
    ensures var before, after := Run(s, es, t).cat, Step(Run(s, es, t), e, t).cat;
      n in after && after[n] == before[n]
  {
    InvRun(s, es, t);
    var m := Run(s, es, t);
    if m.pc.DropListed? && m.pc.names != [] { assert m.pc.names[0] in ClaimsOn(m.cat, t); }
  }

  // ---- what a record proves ----

  /** The k-th event is the create statement that made index `oid` under the canonical name, not there before. */
  predicate CreatesAt(s: State, es: seq<Event>, k: int, oid: Oid, t: Table) {
    0 <= k < |es| && es[k].Advance? && Run(s, es[..k], t).pc.Create?
    && Canonical !in Run(s, es[..k], t).cat && (forall n :: n in Run(s, es[..k], t).cat ==> Run(s, es[..k], t).cat[n].oid != oid)
    && Canonical in Run(s, es[..k + 1], t).cat && Run(s, es[..k + 1], t).cat[Canonical] == Rel(oid, Some(t))
  }

  /** The k-th event records the version while no claim-named index is left on the table. */
  predicate RecordsAt(s: State, es: seq<Event>, k: int, oid: Oid, t: Table) {
    0 <= k < |es| && es[k].Advance? && Run(s, es[..k], t).pc == Record(oid)
    && ClaimsOn(Run(s, es[..k], t).cat, t) == {} && Run(s, es[..k], t).recorded.None?
  }

  function MadeBy(pc: Pc): Option<Oid> {
    match pc
    case DropClaim(_, made) => Some(made)
    case ListClaims(made) => Some(made)
    case DropListed(_, made) => Some(made)
    case Record(made) => Some(made)
    case _ => None
  }

  /** The attempt goes on from event k up to event j. */
  predicate SameAttempt(s: State, es: seq<Event>, k: int, j: int, t: Table) {
    forall i :: 0 <= k < i < j <= |es| ==> !es[i].Fail? && !(es[i].Restart? && Run(s, es[..i], t).pc.Stopped?)
  }

  ghost predicate MadeEarlier(s: State, es: seq<Event>, oid: Oid, t: Table) {
    exists k :: CreatesAt(s, es, k, oid, t) && SameAttempt(s, es, k, |es|, t)
  }

  ghost predicate RecordedProperly(s: State, es: seq<Event>, oid: Oid, t: Table) {
    exists k, j :: CreatesAt(s, es, k, oid, t) && k < j && RecordsAt(s, es, j, oid, t) && SameAttempt(s, es, k, j, t)
  }

  lemma PrefixRuns(s: State, front: seq<Event>, e: Event, k: nat, t: Table)
    requires k <= |front|
    ensures Run(s, (front + [e])[..k], t) == Run(s, front[..k], t)
  {
    assert (front + [e])[..k] == front[..k];
  }

  lemma CreatesStays(s: State, front: seq<Event>, e: Event, k: int, oid: Oid, t: Table)
    requires CreatesAt(s, front, k, oid, t)
    ensures CreatesAt(s, front + [e], k, oid, t)
  {
    PrefixRuns(s, front, e, k, t);
    PrefixRuns(s, front, e, k + 1, t);
    assert (front + [e])[k] == front[k];
  }

  lemma SameAttemptStays(s: State, front: seq<Event>, e: Event, k: int, j: int, t: Table)
    requires 0 <= k && j <= |front| && SameAttempt(s, front, k, j, t)
    ensures SameAttempt(s, front + [e], k, j, t)
  {
    var es := front + [e];
    forall i | k < i < j ensures !es[i].Fail? && !(es[i].Restart? && Run(s, es[..i], t).pc.Stopped?) {
      PrefixRuns(s, front, e, i, t);
      assert es[i] == front[i];
    }
  }

  lemma MadeStays(s: State, front: seq<Event>, e: Event, oid: Oid, t: Table)
    requires MadeEarlier(s, front, oid, t)
    requires !e.Fail? && !(e.Restart? && Run(s, front, t).pc.Stopped?)
    ensures MadeEarlier(s, front + [e], oid, t)
  {
    var es := front + [e];
    var k :| CreatesAt(s, front, k, oid, t) && SameAttempt(s, front, k, |front|, t);
    CreatesStays(s, front, e, k, oid, t);
    SameAttemptStays(s, front, e, k, |front|, t);
    assert es[..|front|] == front && es[|front|] == e;
    assert SameAttempt(s, es, k, |es|, t);
  }

  lemma RecordedStays(s: State, front: seq<Event>, e: Event, oid: Oid, t: Table)
    requires RecordedProperly(s, front, oid, t)
    ensures RecordedProperly(s, front + [e], oid, t)
  {
    var k, j :| CreatesAt(s, front, k, oid, t) && k < j && RecordsAt(s, front, j, oid, t) && SameAttempt(s, front, k, j, t);
    CreatesStays(s, front, e, k, oid, t);
    PrefixRuns(s, front, e, j, t);
    SameAttemptStays(s, front, e, k, j, t);
    assert RecordsAt(s, front + [e], j, oid, t);
  }

  /** An attempt that has got past its create statement made its index itself. */
  lemma {:induction false} MadeByThisAttempt(s: State, es: seq<Event>, t: Table)
    requires Initial(s)
    ensures MadeBy(Run(s, es, t).pc).Some? ==> MadeEarlier(s, es, MadeBy(Run(s, es, t).pc).value, t)
    ensures MadeBy(Run(s, es, t).pc).Some? ==> Run(s, es, t).recorded.None?
  {
    if es != [] {
      var front, e := es[..|es| - 1], es[|es| - 1];
      assert front + [e] == es;
      var before, after := Run(s, front, t), Run(s, es, t);
      MadeByThisAttempt(s, front, t);
      NoneWhileActive(s, front, t);
      if MadeBy(after.pc).Some? {
        if MadeBy(before.pc).Some? {
          assert MadeBy(after.pc) == MadeBy(before.pc);
          MadeStays(s, front, e, MadeBy(after.pc).value, t);
        } else {
          InvRun(s, front, t);
          assert es[..|front|] == front && es[..|front| + 1] == es;
          assert CreatesAt(s, es, |front|, MadeBy(after.pc).value, t);
        }
      }
    }
  }

  lemma {:induction false} NoneWhileActive(s: State, es: seq<Event>, t: Table)
    requires Initial(s)
    ensures !Run(s, es, t).pc.Stopped? ==> Run(s, es, t).recorded.None?
  {
    if es != [] { NoneWhileActive(s, es[..|es| - 1], t); }
  }

  /** Only the record statement records, and it records what its attempt made. */
  lemma RecordingStep(m: State, e: Event, t: Table)
    requires m.recorded.None? && Step(m, e, t).recorded.Some?
    ensures e.Advance? && m.pc == Record(Step(m, e, t).recorded.value)
  {}

  lemma RecordedOnce(m: State, e: Event, t: Table)
    requires m.recorded.Some? && m.pc.Stopped?
    ensures Step(m, e, t).recorded == m.recorded
  {}

  lemma JustRecorded(s: State, front: seq<Event>, e: Event, oid: Oid, t: Table)
    requires Inv(Run(s, front, t), t) && Run(s, front, t).recorded.None? && Run(s, front, t).pc == Record(oid) && e.Advance?
    requires MadeEarlier(s, front, oid, t)
    ensures RecordedProperly(s, front + [e], oid, t)
  {
    var es := front + [e];
    var k :| CreatesAt(s, front, k, oid, t) && SameAttempt(s, front, k, |front|, t);
    CreatesStays(s, front, e, k, oid, t);
    SameAttemptStays(s, front, e, k, |front|, t);
    assert es[..|front|] == front;
    assert RecordsAt(s, es, |front|, oid, t);
  }

  lemma RunSnoc(s: State, front: seq<Event>, e: Event, t: Table)
    ensures Run(s, front + [e], t) == Step(Run(s, front, t), e, t)
  {
    assert (front + [e])[..|front|] == front;
  }

  /**
   * A version is recorded only by an attempt that itself created a new index under the canonical name, and
   * only when no claim-named index is left on the table.
   */
  lemma {:induction false} RecordMeansBuiltAndClean(s: State, es: seq<Event>, t: Table)
    requires Initial(s) && Run(s, es, t).recorded.Some?
    ensures RecordedProperly(s, es, Run(s, es, t).recorded.value, t)
  {
    if es != [] {
      var front, e := es[..|es| - 1], es[|es| - 1];
      assert front + [e] == es;
      var before, oid := Run(s, front, t), Run(s, es, t).recorded.value;
      RunSnoc(s, front, e, t);
      NoneWhileActive(s, front, t);
      if before.recorded.Some? {
        RecordedOnce(before, e, t);
        RecordMeansBuiltAndClean(s, front, t);
        RecordedStays(s, front, e, oid, t);
      } else {
        RecordingStep(before, e, t);
        MadeByThisAttempt(s, front, t);
        InvRun(s, front, t);
        JustRecorded(s, front, e, oid, t);
      }
    }
  }

  // ---- an undisturbed attempt ----

  /** A statement that did not fail: a fresh UUID where one is minted, and a true listing where one is read. */
  predicate Undisturbed(s: State, e: Event, t: Table) {
    e.Advance? && (s.pc.ClaimName? ==> Claim(e.uuid) !in s.cat)
    && (s.pc.ListClaims? ==> Lists(e.listing, ClaimsOn(s.cat, t)))
  }

  ghost predicate UndisturbedRun(s: State, es: seq<Event>, t: Table) {
    forall k :: 0 <= k < |es| ==> Undisturbed(Run(s, es[..k], t), es[k], t)
  }

  /** What decides an attempt from where it stands. */
  predicate WillRecord(s: State, t: Table) {
    match s.pc
    case Inspect => Inspected(s.cat, Canonical, t) != Conflict
    case ClaimName => Inspected(s.cat, Canonical, t) == ExpectedTable
    case Create(_) => Canonical !in s.cat
    case Stopped => s.recorded.Some?
    case _ => true
  }

  /** No more statements than these are left. */
  function StatementsLeft(s: State, t: Table): nat {
    match s.pc
    case Inspect => |ClaimsOn(s.cat, t)| + 7
    case ClaimName => |ClaimsOn(s.cat, t)| + 6
    case Create(_) => |ClaimsOn(s.cat, t)| + 4
    case DropClaim(_, _) => |ClaimsOn(s.cat, t)| + 3
    case ListClaims(_) => |ClaimsOn(s.cat, t)| + 3
    case DropListed(_, _) => |ClaimsOn(s.cat, t)| + 2
    case Record(_) => 1
    case Stopped => 0
  }

  lemma OneClaimLess(cat: Catalog, n: Name, t: Table)
    requires n in ClaimsOn(cat, t)
    ensures |ClaimsOn(cat - {n}, t)| == |ClaimsOn(cat, t)| - 1
  {
    assert ClaimsOn(cat - {n}, t) == ClaimsOn(cat, t) - {n};
  }

  lemma OneClaimMore(cat: Catalog, n: Name, t: Table)
    requires Canonical in cat && cat[Canonical].table == Some(t) && n.Claim? && n !in cat
    ensures |ClaimsOn(Renamed(cat, Canonical, n), t)| == |ClaimsOn(cat, t)| + 1
  {
    assert ClaimsOn(Renamed(cat, Canonical, n), t) == ClaimsOn(cat, t) + {n};
  }

  lemma SameClaims(cat: Catalog, r: Rel, t: Table)
    ensures ClaimsOn(cat[Canonical := r], t) == ClaimsOn(cat, t)
  {}

  lemma UndisturbedStep(s: State, e: Event, t: Table)
    requires Inv(s, t) && Undisturbed(s, e, t) && !s.pc.Stopped? && s.recorded.None?
    ensures var a := Step(s, e, t);
      WillRecord(a, t) == WillRecord(s, t) && StatementsLeft(a, t) < StatementsLeft(s, t)
      && (!a.pc.Stopped? ==> a.recorded.None?) && (!WillRecord(s, t) ==> a.cat == s.cat)
  {
    match s.pc
    case Inspect =>
    case ClaimName => if Canonical in s.cat && s.cat[Canonical].table == Some(t) { OneClaimMore(s.cat, Claim(e.uuid), t); }
    case Create(_) => SameClaims(s.cat, Rel(s.nextOid, Some(t)), t);
    case DropClaim(held, _) => OneClaimLess(s.cat, held, t);
    case ListClaims(_) =>
    case DropListed(names, _) => if names != [] { ListedIsClaim(s, t); OneClaimLess(s.cat, names[0], t); }
    case Record(_) =>
  }

  lemma ListedIsClaim(s: State, t: Table)
    requires s.pc.DropListed? && s.pc.names != [] && PcHolds(s, t)
    ensures s.pc.names[0] in ClaimsOn(s.cat, t)
  {
    assert s.pc.names[0] in (set n | n in s.pc.names);
  }

  lemma {:induction false} UndisturbedProgress(s: State, es: seq<Event>, t: Table)
    requires Inv(s, t) && s.pc.Inspect? && s.recorded.None? && UndisturbedRun(s, es, t)
    ensures var a := Run(s, es, t);
      Inv(a, t) && WillRecord(a, t) == WillRecord(s, t) && (!WillRecord(s, t) ==> a.cat == s.cat)
      && (!a.pc.Stopped? ==> a.recorded.None? && StatementsLeft(a, t) + |es| <= StatementsLeft(s, t))
  {
    if es != [] {
      var front, e := es[..|es| - 1], es[|es| - 1];
      assert forall k :: 0 <= k < |front| ==> front[..k] == es[..k] && front[k] == es[k];
      UndisturbedProgress(s, front, t);
      var m := Run(s, front, t);
      assert Undisturbed(m, e, t);
      InvStep(m, e, t);
      if !m.pc.Stopped? { UndisturbedStep(m, e, t); }
    }
  }

  /**
   * From any state an earlier failure may have left, every attempt nobody disturbs ends, within seven statements and
   * one more for each claim left behind. It records the version exactly when the canonical name is free or held by an
   * index on the expected table, and otherwise changes nothing.
   */
  lemma UndisturbedAttempt(s: State, es: seq<Event>, t: Table)
    requires Inv(s, t) && s.pc.Inspect? && s.recorded.None? && UndisturbedRun(s, es, t)
    requires |es| >= |ClaimsOn(s.cat, t)| + 7
    ensures Run(s, es, t).pc.Stopped?
    ensures Run(s, es, t).recorded.Some? <==> Canonical !in s.cat || s.cat[Canonical].table == Some(t)
    ensures Run(s, es, t).recorded.None? ==> Run(s, es, t).cat == s.cat
  {
    UndisturbedProgress(s, es, t);
  }

  lemma ListingOf(on: set<Name>) returns (names: seq<Name>)
    ensures Lists(names, on)
  {
    if on == {} {
      names := [];
    } else {
      var n := Member(on);
      var rest := ListingOf(on - {n});
      names := [n] + rest;
      assert forall i :: 0 <= i < |rest| ==> rest[i] in rest;
      forall x ensures x in names <==> x in on {
        assert x in names <==> x == n || x in rest;
        assert x in (set y | y in rest) <==> x in on - {n};
      }
    }
  }

  /** And an attempt never gets stuck: with a fresh UUID at hand its next statement exists. */
  lemma NextStatementExists(s: State, t: Table, uuid: nat) returns (e: Event)
    requires Claim(uuid) !in s.cat
    ensures Undisturbed(s, e, t)
  {
    var names := ListingOf(ClaimsOn(s.cat, t));
    e := Advance(uuid, names);
  }
}
