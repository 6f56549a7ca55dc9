/** The persisted tables of the ECB ingestion and the open-data source they are read from. */
module EcbTables {
  import opened Prelude

  type PropertyId = nat
  /** A canonical seven-digit BIN; text order and numeric order agree on these. */
  type Bin = nat
  /** Random run identifiers; they carry no chronology. */
  type RunId = nat
  type SourceId = string

  /** A strictly validated and normalized violation. Dates and times count days or milliseconds. */
  datatype Violation = Violation(
    socrataRowId: string,
    bin: Bin,
    number: Option<string>,
    issueDate: Option<int>,
    status: Option<string>,
    balanceCents: Option<int>,
    updatedAt: int)

  /** A source row either normalizes or fails strict validation; its BIN selects the pages it is on. */
  datatype SourceRow = Valid(violation: Violation) | Invalid(bin: Bin)
  {
    function OnBin(): Bin { if Valid? then violation.bin else bin }
  }

  /** One published state of the source: rows under unique ids, served in a fixed order. */
  datatype Source = Source(rows: map<SourceId, SourceRow>, order: seq<SourceId>)
  {
    predicate Ok() { (forall id | id in order :: id in rows) && (forall id | id in rows :: id in order) }
  }

  datatype RunStatus = Queued | Running | Completed | RunFailed | SourceChanged

  datatype BatchStatus = BatchPending | BatchRunning | BatchCompleted | BatchFailed

  datatype Batch = Batch(
    bins: seq<Bin>,
    pageSize: nat,
    status: BatchStatus,
    attempts: nat,
    pages: nat,
    rows: nat,
    lastError: Option<string>,
    completedAt: bool)

  datatype SnapshotRow = SnapshotRow(property: PropertyId, version: nat, bin: Bin)

  datatype Counts = Counts(propertyBins: nat, bins: nat, batches: nat)

  /** A run row together with the rows that are keyed by its id. */
  datatype Run = Run(
    status: RunStatus,
    initialized: bool,
    expected: Option<Counts>,
    startedAt: Option<nat>,
    startMark: Option<nat>,
    endMark: Option<nat>,
    lastError: Option<string>,
    snapshot: set<SnapshotRow>,
    batches: seq<Batch>,
    staging: map<SourceId, Violation>)
  {
    predicate Active() { status.Queued? || status.Running? }
    function Scanned(): set<Bin> { set row | row in snapshot :: row.bin }
    function Definitions(): (d: seq<seq<Bin>>)
      ensures |d| == |batches|
      ensures forall i :: 0 <= i < |d| ==> d[i] == batches[i].bins
    {
      seq(|batches|, i requires 0 <= i < |batches| => batches[i].bins)
    }
  }

  datatype CoverageStatus = Checked | NotChecked | CoverageFailed

  datatype CoverageReason = NeverIngested | NoValidBin | IdentifiersChanged | IdentifiersChangedAfterSnapshot

  datatype Coverage = Coverage(
    status: CoverageStatus,
    reason: Option<CoverageReason>,
    lastAttempt: Option<RunId>,
    lastSuccess: Option<RunId>,
    lastAttemptAt: Option<nat>,
    lastSuccessAt: Option<nat>,
    watermark: Option<nat>,
    lastError: Option<string>)

  datatype Property = Property(version: nat, bins: set<Bin>)

  datatype LiveRow = LiveRow(violation: Violation, stamp: RunId, current: bool)

  type Live = map<SourceId, LiveRow>

  /** What one accepted publication contributed: recorded for the proofs, stored by no table. */
  datatype Acceptance = Acceptance(run: RunId, mark: nat, staged: map<SourceId, Violation>, scanned: set<Bin>)

  /**
   * The database. The last two fields are history variables: `history` is every BIN set a
   * property has had, by version, and `accepted` is the log of accepted publications.
   */
  datatype Db = Db(
    properties: map<PropertyId, Property>,
    coverage: map<PropertyId, Coverage>,
    runs: map<RunId, Run>,
    live: Live,
    history: map<(PropertyId, nat), set<Bin>>,
    accepted: seq<Acceptance>)

  const EMPTY_DB := Db(map[], map[], map[], map[], map[], [])

  /** Sizes and limits, positive as `env.ts` demands. */
  datatype Config = Config(batchSize: nat, pageSize: nat, maxPages: nat, maxAttempts: nat)
  {
    predicate Ok() { 0 < batchSize && 0 < pageSize <= 50_000 && 0 < maxPages && 0 < maxAttempts }
  }

  /** The rows a run would snapshot from the given properties. */
  function LiveSnapshot(properties: map<PropertyId, Property>): (rows: set<SnapshotRow>)
    ensures forall p, v, b :: SnapshotRow(p, v, b) in rows
                         <==> p in properties && v == properties[p].version && b in properties[p].bins
  {
    set p, b | p in properties && b in properties[p].bins :: SnapshotRow(p, properties[p].version, b)
  }

  /** Live rows served as current on the given BINs. */
  function CurrentOn(live: Live, bins: set<Bin>): (m: map<SourceId, Violation>)
    ensures forall id :: id in m <==> id in live && live[id].current && live[id].violation.bin in bins
    ensures forall id :: id in m ==> m[id] == live[id].violation
  {
    map id | id in live && live[id].current && live[id].violation.bin in bins :: live[id].violation
  }

  /** Normalized source rows on the given BINs. */
  function NormalizedOn(source: Source, bins: set<Bin>): (m: map<SourceId, Violation>)
    ensures forall id :: id in m <==> id in source.rows && source.rows[id].Valid? && source.rows[id].OnBin() in bins
    ensures forall id :: id in m ==> m[id] == source.rows[id].violation
  {
    map id | id in source.rows && source.rows[id].Valid? && source.rows[id].OnBin() in bins :: source.rows[id].violation
  }

  /** Every source row on the given BINs passes strict validation. */
  ghost predicate AllValidOn(source: Source, bins: set<Bin>) {
    forall id :: id in source.rows && source.rows[id].OnBin() in bins ==> source.rows[id].Valid?
  }
}
