/** The estimate-lifecycle backfill: plan, migrate, verify, with SQL's three truth values. */
module EstimateLifecycle {
  import opened Common

  datatype Truth = Yes | No | Unknown

  datatype Status = PublishedStatus | OtherStatus(name: int)

  datatype Lifecycle = CANDIDATE | PUBLISHED | SUPERSEDED

  datatype Reason = LegacyNonGeneration | PublishedSource | NonPublishedSource

  /** `business` stands for every column the migration leaves alone. */
  datatype Estimate = Estimate(
    id: int, generation: Option<int>, created: int, business: int,
    lifecycle: Option<Lifecycle>, publishedAt: Option<int>, supersededAt: Option<int>)

  datatype Generation = Generation(status: Option<Status>, publishedAt: Option<int>, completedAt: Option<int>, rest: int)

  datatype Head = BeforeMigration | AfterMigration

  /** `others` stands for the protected tables besides the generations. */
  datatype Database = Database(
    head: Head, activeJobs: nat, estimates: seq<Estimate>, generations: map<int, Generation>, others: int)

  /** Estimates are read `ORDER BY e.id`, and ids are unique. */
  predicate Ordered(estimates: seq<Estimate>) {
    forall i, j | 0 <= i < j < |estimates| :: estimates[i].id < estimates[j].id
  }

  // ---- The queries -----------------------------------------------------------------------------

  function And(a: Truth, b: Truth): Truth {
    if a == No || b == No then No else if a == Yes && b == Yes then Yes else Unknown
  }

  function Or(a: Truth, b: Truth): Truth {
    if a == Yes || b == Yes then Yes else if a == No && b == No then No else Unknown
  }

  function Bool(b: bool): Truth {
    if b then Yes else No
  }

  function IsPublished(status: Option<Status>): Truth {
    if status.None? then Unknown else Bool(status.value == PublishedStatus)
  }

  function IsNotPublished(status: Option<Status>): Truth {
    if status.None? then Unknown else Bool(status.value != PublishedStatus)
  }

  /** `g.status` of the left join: NULL without a generation, without its row, or with a NULL status. */
  function Joined(e: Estimate, generations: map<int, Generation>): Option<Status> {
    if e.generation.Some? && e.generation.value in generations then generations[e.generation.value].status else None
  }

  /** The CASE expression of the manifest query. */
  function Expected(e: Estimate, generations: map<int, Generation>): Lifecycle {
    if e.generation.None? then PUBLISHED
    else if IsPublished(Joined(e, generations)) == Yes then PUBLISHED
    else SUPERSEDED
  }

  function ReasonFor(e: Estimate, generations: map<int, Generation>): Reason {
    if e.generation.None? then LegacyNonGeneration
    else if IsPublished(Joined(e, generations)) == Yes then PublishedSource
    else NonPublishedSource
  }

  /** The WHERE clauses of the independent queries. */
  function PublishedWhere(e: Estimate, generations: map<int, Generation>): Truth {
    Or(Bool(e.generation.None?), IsPublished(Joined(e, generations)))
  }

  function SupersededWhere(e: Estimate, generations: map<int, Generation>): Truth {
    And(Bool(e.generation.Some?), IsNotPublished(Joined(e, generations)))
  }

  datatype Query = PublishedIds | SupersededIds

  predicate Selected(q: Query, e: Estimate, generations: map<int, Generation>) {
    (if q == PublishedIds then PublishedWhere(e, generations) else SupersededWhere(e, generations)) == Yes
  }

  function Select(q: Query, estimates: seq<Estimate>, generations: map<int, Generation>): seq<int> {
    if estimates == [] then [] else
      (if Selected(q, estimates[0], generations) then [estimates[0].id] else []) + Select(q, estimates[1..], generations)
  }

  // ---- The manifest ----------------------------------------------------------------------------

  datatype Row = Row(
    id: int, business: int, generation: Option<int>, status: Option<Status>, serving: bool, lifecycle: Lifecycle, reason: Reason)

  function RowOf(e: Estimate, generations: map<int, Generation>): Row {
    var expected := Expected(e, generations);
    Row(e.id, e.business, e.generation, Joined(e, generations), expected == PUBLISHED, expected, ReasonFor(e, generations))
  }

  function Rows(estimates: seq<Estimate>, generations: map<int, Generation>): (r: seq<Row>)
    ensures |r| == |estimates| && forall i | 0 <= i < |r| :: r[i] == RowOf(estimates[i], generations)
  {
    seq(|estimates|, i requires 0 <= i < |estimates| => RowOf(estimates[i], generations))
  }

  function IdsWith(rows: seq<Row>, lifecycle: Lifecycle): seq<int> {
    if rows == [] then [] else
      (if rows[0].lifecycle == lifecycle then [rows[0].id] else []) + IdsWith(rows[1..], lifecycle)
  }

  /** Every stored lifecycle is the one the plan computes. */
  predicate AsPlanned(estimates: seq<Estimate>, generations: map<int, Generation>) {
    forall i | 0 <= i < |estimates| :: estimates[i].lifecycle == Some(Expected(estimates[i], generations))
  }

  /** `_manifest_rows`: after the migration, the first differing lifecycle raises. */
  method ManifestRows(db: Database, postMigration: bool) returns (rows: Option<seq<Row>>)
    ensures rows == if postMigration && !AsPlanned(db.estimates, db.generations) then None
                    else Some(Rows(db.estimates, db.generations))
  {
    var result := [];
    for k := 0 to |db.estimates|
      invariant result == Rows(db.estimates, db.generations)[..k]
      invariant postMigration ==> forall i | 0 <= i < k :: db.estimates[i].lifecycle == Some(Expected(db.estimates[i], db.generations))
    {
      var e := db.estimates[k];
      if postMigration && e.lifecycle != Some(Expected(e, db.generations)) {
        return None;
      }
      result := result + [RowOf(e, db.generations)];
    }
    assert Rows(db.estimates, db.generations)[..|db.estimates|] == Rows(db.estimates, db.generations);
    rows := Some(result);
  }

  // ---- Plan ------------------------------------------------------------------------------------

  /** What the protected-table and business hashes cover; the hash is injective. */
  datatype Protected = Protected(generations: map<int, Generation>, others: int)

  function Business(e: Estimate): Estimate {
    e.(lifecycle := None, publishedAt := None, supersededAt := None)
  }

  function BusinessOf(estimates: seq<Estimate>): (r: seq<Estimate>)
    ensures |r| == |estimates| && forall i | 0 <= i < |r| :: r[i] == Business(estimates[i])
  {
    seq(|estimates|, i requires 0 <= i < |estimates| => Business(estimates[i]))
  }

  datatype Content = Content(
    estimateCount: nat, publishedCount: nat, supersededCount: nat, generation10: Generation, generation11: Generation,
    business: seq<Estimate>, guarded: Protected, rows: seq<Row>)

  /** The injective hash of the content; the snapshot time is not part of it. */
  datatype Hash = Hash(of: Content)

  datatype Artifact = Artifact(content: Content, hash: Hash, snapshotAt: int)

  /** `plan`, up to the file it writes. */
  function Plan(db: Database, now: int): Option<Artifact> {
    var rows := Rows(db.estimates, db.generations);
    var published, superseded := IdsWith(rows, PUBLISHED), IdsWith(rows, SUPERSEDED);
    if db.head != BeforeMigration || db.activeJobs > 0 then None
    else if published != Select(PublishedIds, db.estimates, db.generations) then None
    else if superseded != Select(SupersededIds, db.estimates, db.generations) then None
    else if 10 !in db.generations || 11 !in db.generations then None
    else
      var content := Content(|rows|, |published|, |superseded|, db.generations[10], db.generations[11],
                             BusinessOf(db.estimates), Protected(db.generations, db.others), rows);
      Some(Artifact(content, Hash(content), now))
  }

  /** No estimate references a generation whose joined status is NULL. */
  predicate StatusesKnown(estimates: seq<Estimate>, generations: map<int, Generation>) {
    forall i | 0 <= i < |estimates| :: estimates[i].generation.Some? ==> Joined(estimates[i], generations).Some?
  }

  lemma {:induction false} SelectedIsSubset(estimates: seq<Estimate>, generations: map<int, Generation>)
    ensures |Select(SupersededIds, estimates, generations)| <= |IdsWith(Rows(estimates, generations), SUPERSEDED)|
    ensures !StatusesKnown(estimates, generations) ==>
              |Select(SupersededIds, estimates, generations)| < |IdsWith(Rows(estimates, generations), SUPERSEDED)|
  {
    if estimates != [] {
      SelectedIsSubset(estimates[1..], generations);
      assert Rows(estimates, generations)[1..] == Rows(estimates[1..], generations);
    }
  }

  lemma {:induction false} PublishedAgree(estimates: seq<Estimate>, generations: map<int, Generation>)
    ensures Select(PublishedIds, estimates, generations) == IdsWith(Rows(estimates, generations), PUBLISHED)
  {
    if estimates != [] {
      PublishedAgree(estimates[1..], generations);
      assert Rows(estimates, generations)[1..] == Rows(estimates[1..], generations);
    }
  }

  lemma {:induction false} SupersededAgree(estimates: seq<Estimate>, generations: map<int, Generation>)
    requires StatusesKnown(estimates, generations)
    ensures Select(SupersededIds, estimates, generations) == IdsWith(Rows(estimates, generations), SUPERSEDED)
  {
    if estimates != [] {
      SupersededAgree(estimates[1..], generations);
      assert Rows(estimates, generations)[1..] == Rows(estimates[1..], generations);
    }
  }

  /** The two formulations agree exactly when every referenced generation has a known status. */
  lemma {:induction false} QueriesAgree(estimates: seq<Estimate>, generations: map<int, Generation>)
    ensures Select(PublishedIds, estimates, generations) == IdsWith(Rows(estimates, generations), PUBLISHED)
    ensures Select(SupersededIds, estimates, generations) == IdsWith(Rows(estimates, generations), SUPERSEDED)
       <==> StatusesKnown(estimates, generations)
  {
    PublishedAgree(estimates, generations);
    SelectedIsSubset(estimates, generations);
    if StatusesKnown(estimates, generations) {
      SupersededAgree(estimates, generations);
    }
  }

  /** So a plan is made exactly then, on a stopped database at the old head with both audited generations. */
  lemma {:induction false} PlanExactly(db: Database, now: int)
    ensures Plan(db, now).Some? <==>
            && db.head == BeforeMigration && db.activeJobs == 0 && 10 in db.generations && 11 in db.generations
            && StatusesKnown(db.estimates, db.generations)
  {
    QueriesAgree(db.estimates, db.generations);
  }

  lemma {:induction false} SelectHas(q: Query, estimates: seq<Estimate>, generations: map<int, Generation>, id: int)
    ensures id in Select(q, estimates, generations) <==>
            exists i :: 0 <= i < |estimates| && estimates[i].id == id && Selected(q, estimates[i], generations)
  {
    if estimates != [] {
      SelectHas(q, estimates[1..], generations, id);
      assert forall i | 0 <= i < |estimates| - 1 :: estimates[1..][i] == estimates[i + 1];
      assert forall i | 0 < i < |estimates| :: estimates[i] == estimates[1..][i - 1];
    }
  }

  /** The independent queries partition the estimates exactly when every referenced status is known. */
  lemma {:induction false} QueriesPartition(estimates: seq<Estimate>, generations: map<int, Generation>)
    requires Ordered(estimates)
    ensures forall i | 0 <= i < |estimates| ::
              !(estimates[i].id in Select(PublishedIds, estimates, generations)
                && estimates[i].id in Select(SupersededIds, estimates, generations))
    ensures StatusesKnown(estimates, generations) <==>
            forall i | 0 <= i < |estimates| ::
              || estimates[i].id in Select(PublishedIds, estimates, generations)
              || estimates[i].id in Select(SupersededIds, estimates, generations)
  {
    forall i | 0 <= i < |estimates|
      ensures estimates[i].id in Select(PublishedIds, estimates, generations) <==> Selected(PublishedIds, estimates[i], generations)
      ensures estimates[i].id in Select(SupersededIds, estimates, generations) <==> Selected(SupersededIds, estimates[i], generations)
    {
      SelectHas(PublishedIds, estimates, generations, estimates[i].id);
      SelectHas(SupersededIds, estimates, generations, estimates[i].id);
    }
  }

  // ---- Migrate ---------------------------------------------------------------------------------

  function Coalesce(a: Option<int>, b: Option<int>): Option<int> {
    if a.Some? then a else b
  }

  /** The joined UPDATE: only estimates whose generation row exists. */
  function UpdateJoined(e: Estimate, generations: map<int, Generation>): Estimate {
    if e.generation.None? || e.generation.value !in generations then e else
      var g := generations[e.generation.value];
      e.(lifecycle := Some(if IsPublished(g.status) == Yes then PUBLISHED else SUPERSEDED),
         publishedAt := if IsPublished(g.status) == Yes then Coalesce(g.publishedAt, Some(e.created)) else g.publishedAt,
         supersededAt := if IsNotPublished(g.status) == Yes
                         then Coalesce(g.completedAt, Coalesce(g.publishedAt, Some(e.created))) else None)
  }

  /** The column default, then the joined UPDATE, then the UPDATE of estimates without a generation. */
  function MigrateOne(e: Estimate, generations: map<int, Generation>): Estimate {
    var added := e.(lifecycle := Some(CANDIDATE), publishedAt := None, supersededAt := None);
    var joined := UpdateJoined(added, generations);
    if e.generation.None? then joined.(lifecycle := Some(PUBLISHED), publishedAt := Some(e.created)) else joined
  }

  /** The timestamp CHECK constraint. */
  predicate TimestampsOk(e: Estimate) {
    || (e.lifecycle == Some(CANDIDATE) && e.publishedAt.None? && e.supersededAt.None?)
    || (e.lifecycle == Some(PUBLISHED) && e.publishedAt.Some? && e.supersededAt.None?)
    || (e.lifecycle == Some(SUPERSEDED) && e.supersededAt.Some?)
  }

  function MigrateAll(estimates: seq<Estimate>, generations: map<int, Generation>): (r: seq<Estimate>)
    ensures |r| == |estimates| && forall i | 0 <= i < |r| :: r[i] == MigrateOne(estimates[i], generations)
  {
    seq(|estimates|, i requires 0 <= i < |estimates| => MigrateOne(estimates[i], generations))
  }

  /** The migration; a violated constraint rolls it back. */
  function Migrate(db: Database): Option<Database> {
    var migrated := MigrateAll(db.estimates, db.generations);
    if forall i | 0 <= i < |migrated| :: TimestampsOk(migrated[i])
    then Some(db.(head := AfterMigration, estimates := migrated))
    else None
  }

  /**
   What one estimate gets: the planned lifecycle unless its generation row is missing, and
   timestamps that satisfy the constraint unless that row has a NULL status.
   */
  lemma {:induction false} MigratedOne(e: Estimate, generations: map<int, Generation>)
    ensures var m := MigrateOne(e, generations);
            var dangling := e.generation.Some? && e.generation.value !in generations;
            && Business(m) == Business(e)
            && (m.lifecycle == Some(Expected(m, generations)) <==> !dangling)
            && (TimestampsOk(m) <==> (e.generation.None? || dangling || Joined(e, generations).Some?))
  {
  }

  // ---- Verify ----------------------------------------------------------------------------------

  function Count(rows: seq<Row>, lifecycle: Lifecycle): nat {
    |IdsWith(rows, lifecycle)|
  }

  /** `verify`: every check it makes. */
  predicate Verify(artifact: Artifact, expectedHash: Hash, db: Database) {
    var rows := Rows(db.estimates, db.generations);
    var c := artifact.content;
    && artifact.hash == expectedHash && Hash(c) == expectedHash
    && db.head == AfterMigration && db.activeJobs == 0
    && AsPlanned(db.estimates, db.generations)
    && rows == c.rows
    && |rows| == c.estimateCount && Count(rows, PUBLISHED) == c.publishedCount && Count(rows, SUPERSEDED) == c.supersededCount
    && Count(rows, CANDIDATE) == 0
    && BusinessOf(db.estimates) == c.business
    && Protected(db.generations, db.others) == c.guarded
    && 10 in db.generations && db.generations[10] == c.generation10
    && 11 in db.generations && db.generations[11] == c.generation11
  }

  /** A successful verification: each stored lifecycle is the reviewed one, and no estimate was added, removed or changed. */
  lemma {:induction false} VerifySound(artifact: Artifact, expectedHash: Hash, db: Database)
    requires Verify(artifact, expectedHash, db)
    ensures artifact.hash == Hash(artifact.content)
    ensures |db.estimates| == |artifact.content.rows|
    ensures forall i | 0 <= i < |db.estimates| ::
              && db.estimates[i].id == artifact.content.rows[i].id
              && db.estimates[i].lifecycle == Some(artifact.content.rows[i].lifecycle)
              && artifact.content.rows[i].lifecycle != CANDIDATE
  {
    forall i | 0 <= i < |db.estimates|
      ensures db.estimates[i].id == artifact.content.rows[i].id
      ensures db.estimates[i].lifecycle == Some(artifact.content.rows[i].lifecycle)
    {
      assert artifact.content.rows[i] == RowOf(db.estimates[i], db.generations);
    }
  }

  lemma {:induction false} NoCandidates(estimates: seq<Estimate>, generations: map<int, Generation>)
    ensures Count(Rows(estimates, generations), CANDIDATE) == 0
  {
    if estimates != [] {
      NoCandidates(estimates[1..], generations);
      assert Rows(estimates, generations)[1..] == Rows(estimates[1..], generations);
    }
  }

  /** A planned artifact verifies against exactly the databases that carry its content and its lifecycles. */
  lemma {:induction false} VerifyExactly(planned: Database, now: int, db: Database)
    requires Plan(planned, now).Some?
    ensures var artifact := Plan(planned, now).value;
            Verify(artifact, artifact.hash, db) <==>
            && db.head == AfterMigration && db.activeJobs == 0
            && BusinessOf(db.estimates) == BusinessOf(planned.estimates)
            && db.generations == planned.generations && db.others == planned.others
            && AsPlanned(db.estimates, db.generations)
  {
    NoCandidates(db.estimates, db.generations);
    if BusinessOf(db.estimates) == BusinessOf(planned.estimates) && db.generations == planned.generations {
      SameRows(db.estimates, planned.estimates, db.generations);
    }
  }

  lemma {:induction false} SameRows(a: seq<Estimate>, b: seq<Estimate>, generations: map<int, Generation>)
    requires BusinessOf(a) == BusinessOf(b)
    ensures Rows(a, generations) == Rows(b, generations)
  {
    forall i | 0 <= i < |a| ensures RowOf(a[i], generations) == RowOf(b[i], generations) {
      assert Business(a[i]) == BusinessOf(a)[i] && Business(b[i]) == BusinessOf(b)[i];
    }
  }

  /** The protocol end to end: a planned database migrates, and its artifact then verifies. */
  lemma {:induction false} PlannedMigratesAndVerifies(db: Database, now: int)
    requires Plan(db, now).Some?
    ensures Migrate(db).Some?
    ensures Verify(Plan(db, now).value, Plan(db, now).value.hash, Migrate(db).value)
  {
    PlanExactly(db, now);
    var migrated := MigrateAll(db.estimates, db.generations);
    forall i | 0 <= i < |migrated|
      ensures TimestampsOk(migrated[i]) && Business(migrated[i]) == Business(db.estimates[i])
      ensures migrated[i].lifecycle == Some(Expected(migrated[i], db.generations))
    {
      MigratedOne(db.estimates[i], db.generations);
    }
    assert BusinessOf(migrated) == BusinessOf(db.estimates);
    VerifyExactly(db, now, Migrate(db).value);
  }

  // ---- The schema's own constraints --------------------------------------------------------------

  /** The foreign key of the estimates, and the generations' status being NOT NULL. */
  predicate Constrained(db: Database) {
    && (forall i | 0 <= i < |db.estimates| ::
          db.estimates[i].generation.Some? ==> db.estimates[i].generation.value in db.generations)
    && (forall g | g in db.generations :: db.generations[g].status.Some?)
  }

  lemma {:induction false} ConstrainedKnown(db: Database)
    requires Constrained(db)
    ensures StatusesKnown(db.estimates, db.generations)
  {
    forall i | 0 <= i < |db.estimates| && db.estimates[i].generation.Some?
      ensures Joined(db.estimates[i], db.generations).Some?
    {
      var g := db.estimates[i].generation.value;
      assert g in db.generations && db.generations[g].status.Some?;
    }
  }

  /** Under them the two formulations always agree, and together they cover every estimate exactly once. */
  lemma {:induction false} ConstrainedQueriesAgree(db: Database)
    requires Constrained(db) && Ordered(db.estimates)
    ensures var published := Select(PublishedIds, db.estimates, db.generations);
            var superseded := Select(SupersededIds, db.estimates, db.generations);
            var rows := Rows(db.estimates, db.generations);
            && published == IdsWith(rows, PUBLISHED) && superseded == IdsWith(rows, SUPERSEDED)
            && forall i | 0 <= i < |db.estimates| ::
                 db.estimates[i].id in published <==> db.estimates[i].id !in superseded
  {
    ConstrainedKnown(db);
    QueriesAgree(db.estimates, db.generations);
    QueriesPartition(db.estimates, db.generations);
  }

  /**
   Under them the migration always commits, with the planned lifecycle everywhere; a plan is refused only for the
   wrong head, active jobs or a missing audited generation; and a plan made before the migration verifies after it.
   */
  lemma {:induction false} ConstrainedProtocol(db: Database, now: int)
    requires Constrained(db)
    ensures StatusesKnown(db.estimates, db.generations)
    ensures Migrate(db).Some?
    ensures AsPlanned(Migrate(db).value.estimates, db.generations)
    ensures Plan(db, now).Some? <==>
            db.head == BeforeMigration && db.activeJobs == 0 && 10 in db.generations && 11 in db.generations
    ensures Plan(db, now).Some? ==> Verify(Plan(db, now).value, Plan(db, now).value.hash, Migrate(db).value)
  {
    ConstrainedKnown(db);
    PlanExactly(db, now);
    var migrated := MigrateAll(db.estimates, db.generations);
    forall i | 0 <= i < |migrated|
      ensures TimestampsOk(migrated[i]) && migrated[i].lifecycle == Some(Expected(migrated[i], db.generations))
    {
      MigratedOne(db.estimates[i], db.generations);
    }
    if Plan(db, now).Some? {
      PlannedMigratesAndVerifies(db, now);
    }
  }
}
