/**
 * The two parcel sources as fixed answers: what one lookup and one bulk lookup make of them, with
 * their paging, grouping and classification.
 */
module RegistrationSources {
  import opened Prelude
  import opened EcbTables

  /** A canonical ten-digit BBL: borough, five-digit block, four-digit lot. */
  type Bbl = nat

  function Borough(b: Bbl): nat { b / 1_000_000_000 }
  function Block(b: Bbl): nat { b / 10_000 % 100_000 }
  function Lot(b: Bbl): nat { b % 10_000 }

  predicate IsCondoUnit(b: Bbl) { 1001 <= Lot(b) < 7501 }

  const LOOKUP_PAGE := 50
  const MAX_LOOKUP_PAGES := 20
  const CHUNK_SIZE := 500
  const BINS_PER_BBL := 50
  const MAX_PAGE_LIMIT := 50_000
  const PLUTO_LIMIT := 2

  datatype Result<+T> = Ok(value: T) | Err(error: AppError)

  datatype AppError =
    | InvalidBbl
    | PlutoNotFound
    | PlutoIncomplete(reasons: seq<IncompleteReason>)
    | PlutoMultiple
    | CondoUnitNotFound
    | CondoUnitAmbiguous
    | CondoBillingNotFound
    | CondoBillingAmbiguous
    | FootprintMapplutoMismatch
    | FootprintBaseMismatch
    | FootprintsMalformed
    | FootprintsPageLimit
    | Unresolved

  // ---- Building footprints ----

  datatype Mappluto = Absent | Unreadable | Known(bbl: Bbl)

  datatype Candidate = Candidate(bin: Bin, baseBbl: Bbl, mappluto: Mappluto)

  /** A stored row: the texts its filters compare, and the candidate it parses to, if it does. */
  datatype FootprintRecord = FootprintRecord(rawBase: Option<Bbl>, rawMappluto: Option<Bbl>, candidate: Option<Candidate>)
  {
    /** What parses agrees with what is stored. */
    predicate Ok() {
      candidate.Some? ==>
        && rawBase == Some(candidate.value.baseBbl)
        && rawMappluto == if candidate.value.mappluto.Known? then Some(candidate.value.mappluto.bbl) else None
    }
  }

  datatype LookupMode = Parcel | Base

  predicate Matches(r: FootprintRecord, b: Bbl, mode: LookupMode) {
    r.rawBase == Some(b) || (mode.Parcel? && r.rawMappluto == Some(b))
  }

  predicate MatchesAny(r: FootprintRecord, bbls: set<Bbl>, mode: LookupMode) {
    (r.rawBase.Some? && r.rawBase.value in bbls) || (mode.Parcel? && r.rawMappluto.Some? && r.rawMappluto.value in bbls)
  }

  function MatchingOne(records: seq<FootprintRecord>, b: Bbl, mode: LookupMode): seq<FootprintRecord> {
    if records == [] then []
    else (if Matches(records[0], b, mode) then [records[0]] else []) + MatchingOne(records[1..], b, mode)
  }

  function MatchingAny(records: seq<FootprintRecord>, bbls: set<Bbl>, mode: LookupMode): seq<FootprintRecord> {
    if records == [] then []
    else (if MatchesAny(records[0], bbls, mode) then [records[0]] else []) + MatchingAny(records[1..], bbls, mode)
  }

  lemma {:induction false} MatchingMembers(records: seq<FootprintRecord>, b: Bbl, bbls: set<Bbl>, mode: LookupMode,
                                           r: FootprintRecord)
    ensures r in MatchingOne(records, b, mode) <==> r in records && Matches(r, b, mode)
    ensures r in MatchingAny(records, bbls, mode) <==> r in records && MatchesAny(r, bbls, mode)
  {
    if records != [] { MatchingMembers(records[1..], b, bbls, mode, r); }
  }

  function Candidates(records: seq<FootprintRecord>): seq<Candidate> {
    if records == [] then []
    else (if records[0].candidate.Some? then [records[0].candidate.value] else []) + Candidates(records[1..])
  }

  lemma {:induction false} CandidatesAppend(a: seq<FootprintRecord>, b: seq<FootprintRecord>)
    ensures Candidates(a + b) == Candidates(a) + Candidates(b)
  {
    if a == [] {
      assert a + b == b;
    } else {
      assert (a + b)[0] == a[0] && (a + b)[1..] == a[1..] + b;
      CandidatesAppend(a[1..], b);
      var head := if a[0].candidate.Some? then [a[0].candidate.value] else [];
      assert Candidates(a + b) == head + Candidates(a[1..] + b) == head + (Candidates(a[1..]) + Candidates(b));
      assert Candidates(a) == head + Candidates(a[1..]);
    }
  }

  lemma {:induction false} CandidateMembers(records: seq<FootprintRecord>, x: Candidate)
    ensures x in Candidates(records) <==> exists r :: r in records && r.candidate == Some(x)
  {
    if records != [] {
      CandidateMembers(records[1..], x);
      if r :| r in records && r.candidate == Some(x) {
        assert r == records[0] || r in records[1..];
      }
    }
  }

  datatype FootprintLookup = NotFound | Found(candidates: seq<Candidate>)

  /** One page of an answer. */
  function PageAt<T>(answer: seq<T>, offset: nat, limit: nat): (page: seq<T>)
    ensures |page| <= limit
    ensures offset <= |answer| ==> offset + |page| <= |answer| && page == answer[offset..offset + |page|]
    ensures offset <= |answer| && |page| < limit ==> offset + |page| == |answer|
  {
    if |answer| <= offset then []
    else if |answer| <= offset + limit then answer[offset..]
    else answer[offset..offset + limit]
  }

  /** The answer fits into the pages that are asked for: the last of them is not full. */
  predicate WithinPages(count: nat, limit: nat) { count < MAX_LOOKUP_PAGES * limit }

  /** Pages of one lookup, collected until a short one; the page limit is an error. */
  method FetchAllLookupRecords(answer: seq<FootprintRecord>) returns (result: Result<seq<FootprintRecord>>)
    ensures result == if WithinPages(|answer|, LOOKUP_PAGE) then Ok(answer) else Err(FootprintsPageLimit)
  {
    var records := [];
    var pageIndex := 0;
    while pageIndex < MAX_LOOKUP_PAGES
      invariant pageIndex <= MAX_LOOKUP_PAGES
      invariant pageIndex * LOOKUP_PAGE <= |answer| && records == answer[..pageIndex * LOOKUP_PAGE]
    {
      var page := PageAt(answer, pageIndex * LOOKUP_PAGE, LOOKUP_PAGE);
      records := records + page;
      if |page| < LOOKUP_PAGE {
        assert records == answer;
        return Ok(records);
      }
      pageIndex := pageIndex + 1;
    }
    return Err(FootprintsPageLimit);
  }

  function LookupOne(records: seq<FootprintRecord>, b: Bbl, mode: LookupMode): Result<FootprintLookup> {
    var answer := MatchingOne(records, b, mode);
    if !WithinPages(|answer|, LOOKUP_PAGE) then Err(FootprintsPageLimit)
    else if answer == [] then Ok(NotFound)
    else if Candidates(answer) == [] then Err(FootprintsMalformed)
    else Ok(Found(Candidates(answer)))
  }

  method Lookup(records: seq<FootprintRecord>, b: Bbl, mode: LookupMode) returns (result: Result<FootprintLookup>)
    ensures result == LookupOne(records, b, mode)
  {
    var fetched := FetchAllLookupRecords(MatchingOne(records, b, mode));
    if fetched.Err? { return Err(fetched.error); }
    if |fetched.value| == 0 { return Ok(NotFound); }
    var candidates := Candidates(fetched.value);
    if |candidates| == 0 { return Err(FootprintsMalformed); }
    return Ok(Found(candidates));
  }

  function BulkPageLimit(count: nat): nat {
    var estimate := if count * BINS_PER_BBL < count then count else count * BINS_PER_BBL;
    if MAX_PAGE_LIMIT < estimate then MAX_PAGE_LIMIT else estimate
  }

  /** How often the bulk lookup lists a candidate under a BBL: once for its base and once for its MapPLUTO BBL. */
  function Listed(x: Candidate, b: Bbl, mode: LookupMode): seq<Candidate> {
    (if x.baseBbl == b then [x] else []) + (if mode.Parcel? && x.mappluto == Known(b) then [x] else [])
  }

  function Grouped(candidates: seq<Candidate>, b: Bbl, mode: LookupMode): seq<Candidate> {
    if candidates == [] then []
    else Listed(candidates[0], b, mode) + Grouped(candidates[1..], b, mode)
  }

  lemma {:induction false} GroupedAppend(a: seq<Candidate>, c: seq<Candidate>, b: Bbl, mode: LookupMode)
    ensures Grouped(a + c, b, mode) == Grouped(a, b, mode) + Grouped(c, b, mode)
  {
    if a == [] {
      assert a + c == c;
    } else {
      assert (a + c)[0] == a[0] && (a + c)[1..] == a[1..] + c;
      GroupedAppend(a[1..], c, b, mode);
      var head := Listed(a[0], b, mode);
      assert Grouped(a + c, b, mode) == head + Grouped(a[1..] + c, b, mode)
          == head + (Grouped(a[1..], b, mode) + Grouped(c, b, mode));
      assert Grouped(a, b, mode) == head + Grouped(a[1..], b, mode);
    }
  }

  lemma {:induction false} GroupedMembers(candidates: seq<Candidate>, b: Bbl, mode: LookupMode, x: Candidate)
    ensures x in Grouped(candidates, b, mode) <==> x in candidates && Listed(x, b, mode) != []
  {
    if candidates != [] { GroupedMembers(candidates[1..], b, mode, x); }
  }

  type Groups = map<Bbl, seq<Candidate>>

  ghost predicate GroupedAs(groups: Groups, bbls: set<Bbl>, candidates: seq<Candidate>, mode: LookupMode) {
    groups.Keys == bbls && forall b :: b in bbls ==> groups[b] == Grouped(candidates, b, mode)
  }

  /** Files one candidate under the BBLs of the chunk that it names. */
  method FileCandidate(groups: Groups, x: Candidate, mode: LookupMode) returns (after: Groups)
    ensures after.Keys == groups.Keys
    ensures forall b :: b in groups ==> after[b] == groups[b] + Listed(x, b, mode)
  {
    after := groups;
    if x.baseBbl in after {
      after := after[x.baseBbl := after[x.baseBbl] + [x]];
    }
    if mode.Base? { return; }
    if x.mappluto.Known? && x.mappluto.bbl in after {
      after := after[x.mappluto.bbl := after[x.mappluto.bbl] + [x]];
    }
  }

  lemma {:induction false} GroupedOneMore(seen: seq<Candidate>, x: Candidate, b: Bbl, mode: LookupMode)
    ensures Grouped(seen + [x], b, mode) == Grouped(seen, b, mode) + Listed(x, b, mode)
  {
    GroupedAppend(seen, [x], b, mode);
    assert Grouped([x], b, mode) == Listed(x, b, mode) + Grouped([x][1..], b, mode);
  }

  method FilePage(groups: Groups, page: seq<Candidate>, mode: LookupMode, ghost bbls: set<Bbl>, ghost seen: seq<Candidate>)
    returns (after: Groups)
    requires GroupedAs(groups, bbls, seen, mode)
    ensures GroupedAs(after, bbls, seen + page, mode)
  {
    after := groups;
    var i := 0;
    assert seen + page[..0] == seen;
    while i < |page|
      invariant i <= |page| && GroupedAs(after, bbls, seen + page[..i], mode)
    {
      after := FileCandidate(after, page[i], mode);
      forall b | b in bbls ensures after[b] == Grouped(seen + page[..i] + [page[i]], b, mode) {
        GroupedOneMore(seen + page[..i], page[i], b, mode);
      }
      assert seen + page[..i + 1] == seen + page[..i] + [page[i]];
      i := i + 1;
    }
    assert page[..i] == page;
  }

  lemma NextPageCandidates(answer: seq<FootprintRecord>, offset: nat, page: seq<FootprintRecord>)
    requires offset + |page| <= |answer| && page == answer[offset..offset + |page|]
    ensures Candidates(answer[..offset + |page|]) == Candidates(answer[..offset]) + Candidates(page)
  {
    hide Candidates;
    CandidatesAppend(answer[..offset], page);
    assert answer[..offset] + page == answer[..offset + |page|];
  }

  /** One page of a bulk chunk, filed under the BBLs it names. */
  method FileNextPage(answer: seq<FootprintRecord>, offset: nat, limit: nat, mode: LookupMode, grouped: Groups,
                      ghost bbls: set<Bbl>)
    returns (after: Groups, got: nat)
    requires offset <= |answer| && GroupedAs(grouped, bbls, Candidates(answer[..offset]), mode)
    ensures got <= limit && offset + got <= |answer| && (got < limit ==> offset + got == |answer|)
    ensures GroupedAs(after, bbls, Candidates(answer[..offset + got]), mode)
  {
    var page := PageAt(answer, offset, limit);
    NextPageCandidates(answer, offset, page);
    after := FilePage(grouped, Candidates(page), mode, bbls, Candidates(answer[..offset]));
    got := |page|;
  }

  /** Pages of one bulk chunk, each filed as it comes; the last allowed page must not be full. */
  method FetchBulkLookupCandidates(records: seq<FootprintRecord>, chunk: seq<Bbl>, mode: LookupMode)
    returns (result: Result<Groups>)
    requires chunk != []
    ensures var answer := MatchingAny(records, ToSet(chunk), mode);
            if WithinPages(|answer|, BulkPageLimit(|chunk|))
            then result.Ok? && GroupedAs(result.value, ToSet(chunk), Candidates(answer), mode)
            else result == Err(FootprintsPageLimit)
  {
    hide MatchingAny, Candidates, GroupedAs, BulkPageLimit;
    var bblSet := ToSet(chunk);
    var answer := MatchingAny(records, bblSet, mode);
    var pageLimit := BulkPageLimit(|chunk|);
    var grouped: Groups := map b | b in bblSet :: [];
    NothingGrouped(bblSet, mode, answer);
    var pageIndex := 0;
    while pageIndex < MAX_LOOKUP_PAGES
      invariant pageIndex < MAX_LOOKUP_PAGES
      invariant pageIndex * pageLimit <= |answer|
      invariant GroupedAs(grouped, bblSet, Candidates(answer[..pageIndex * pageLimit]), mode)
    {
      var offset := pageIndex * pageLimit;
      var got: nat;
      grouped, got := FileNextPage(answer, offset, pageLimit, mode, grouped, bblSet);
      AtMost(pageIndex, pageLimit);
      if got < pageLimit {
        assert answer[..offset + got] == answer;
        return Ok(grouped);
      }
      if pageIndex == MAX_LOOKUP_PAGES - 1 {
        return Err(FootprintsPageLimit);
      }
      pageIndex := pageIndex + 1;
      assert pageIndex * pageLimit == offset + got;
    }
  }

  lemma NothingGrouped(bbls: set<Bbl>, mode: LookupMode, answer: seq<FootprintRecord>)
    ensures GroupedAs(map b | b in bbls :: [], bbls, Candidates(answer[..0]), mode)
  {
    assert answer[..0] == [];
  }

  lemma AtMost(pageIndex: nat, limit: nat)
    requires pageIndex < MAX_LOOKUP_PAGES
    ensures pageIndex * limit + limit <= MAX_LOOKUP_PAGES * limit
  {
  }

  // ---- PLUTO ----

  datatype IncompleteReason =
    MissingBbl | MissingBorocode | MissingBlock | MissingLot | MissingAddress | IdentifierMismatch

  datatype PlutoRecord = PlutoRecord(bbl: Option<Bbl>, borough: Option<nat>, block: Option<nat>, lot: Option<nat>,
                                     address: Option<string>)

  datatype ParcelRecord = ParcelRecord(bbl: Bbl, borough: nat, block: nat, lot: nat, address: string)

  datatype Assessment = Complete(parcel: ParcelRecord) | Incomplete(reasons: seq<IncompleteReason>, rawBbl: Option<Bbl>)

  function MissingOf(r: PlutoRecord): seq<IncompleteReason> {
    (if r.bbl.None? then [MissingBbl] else [])
    + (if r.borough.None? then [MissingBorocode] else [])
    + (if r.block.None? then [MissingBlock] else [])
    + (if r.lot.None? then [MissingLot] else [])
    + (if r.address.None? then [MissingAddress] else [])
  }

  function ReasonsOf(r: PlutoRecord): seq<IncompleteReason> {
    MissingOf(r) + (if IdentifiersDisagree(r) then [IdentifierMismatch] else [])
  }

  predicate IdentifiersDisagree(r: PlutoRecord) {
    && r.bbl.Some? && r.borough.Some? && r.block.Some? && r.lot.Some?
    && (Borough(r.bbl.value) != r.borough.value || Block(r.bbl.value) != r.block.value || Lot(r.bbl.value) != r.lot.value)
  }

  /** A record is complete exactly when nothing required is missing and the identifiers agree. */
  method AssessPlutoRecord(r: PlutoRecord) returns (assessment: Assessment)
    ensures assessment == Assessed(r)
    ensures assessment.Complete? <==>
              && r.bbl.Some? && r.address.Some?
              && r.borough == Some(Borough(r.bbl.value)) && r.block == Some(Block(r.bbl.value)) && r.lot == Some(Lot(r.bbl.value))
  {
    hide Borough, Block, Lot;
    CompleteExactly(r);
    var reasons := [];
    if r.bbl.None? { reasons := reasons + [MissingBbl]; }
    if r.borough.None? { reasons := reasons + [MissingBorocode]; }
    if r.block.None? { reasons := reasons + [MissingBlock]; }
    if r.lot.None? { reasons := reasons + [MissingLot]; }
    if r.address.None? { reasons := reasons + [MissingAddress]; }
    ghost var missing := reasons;
    assert missing == MissingOf(r);
    if IdentifiersDisagree(r) { reasons := reasons + [IdentifierMismatch]; }
    assert reasons == ReasonsOf(r);
    if |reasons| > 0 {
      return Incomplete(reasons, r.bbl);
    }
    return Complete(ParcelRecord(r.bbl.value, r.borough.value, r.block.value, r.lot.value, r.address.value));
  }

  lemma CompleteExactly(r: PlutoRecord)
    ensures ReasonsOf(r) == [] <==>
              && r.bbl.Some? && r.address.Some?
              && r.borough == Some(Borough(r.bbl.value)) && r.block == Some(Block(r.bbl.value)) && r.lot == Some(Lot(r.bbl.value))
  {
    hide Borough, Block, Lot;
  }

  function Assessed(r: PlutoRecord): Assessment {
    if ReasonsOf(r) != [] then Incomplete(ReasonsOf(r), r.bbl)
    else Complete(ParcelRecord(r.bbl.value, r.borough.value, r.block.value, r.lot.value, r.address.value))
  }

  /** The reasons of both, each once, in order of first appearance. */
  function MergeReasons(left: seq<IncompleteReason>, right: seq<IncompleteReason>): seq<IncompleteReason> {
    DistinctOf(left + right, [])
  }

  function DistinctOf(s: seq<IncompleteReason>, seen: seq<IncompleteReason>): seq<IncompleteReason> {
    if s == [] then seen
    else DistinctOf(s[1..], if s[0] in seen then seen else seen + [s[0]])
  }

  datatype PlutoLookup = PlutoMissing | PlutoFound(parcel: ParcelRecord) | PlutoPartial(reasons: seq<IncompleteReason>)
                       | PlutoMany

  /** What the records seen so far for one BBL amount to. */
  datatype Tally = Tally(parcels: seq<ParcelRecord>, reasons: seq<IncompleteReason>)

  function Count(t: Tally, r: PlutoRecord): Tally {
    match Assessed(r)
    case Complete(parcel) => t.(parcels := t.parcels + [parcel])
    case Incomplete(reasons, _) => t.(reasons := MergeReasons(t.reasons, reasons))
  }

  function CountAll(t: Tally, records: seq<PlutoRecord>): Tally
    decreases |records|
  {
    if records == [] then t else CountAll(Count(t, records[0]), records[1..])
  }

  lemma {:induction false} CountAppend(t: Tally, a: seq<PlutoRecord>, b: seq<PlutoRecord>)
    ensures CountAll(t, a + b) == CountAll(CountAll(t, a), b)
    decreases |a|
  {
    if a == [] {
      assert a + b == b;
    } else {
      assert (a + b)[1..] == a[1..] + b;
      CountAppend(Count(t, a[0]), a[1..], b);
    }
  }

  function Classify(t: Tally): PlutoLookup {
    if |t.parcels| == 1 then PlutoFound(t.parcels[0])
    else if |t.parcels| > 1 then PlutoMany
    else if t.reasons != [] then PlutoPartial(t.reasons)
    else PlutoMissing
  }

  const NO_RECORDS := Tally([], [])

  function OfBbl(records: seq<PlutoRecord>, b: Bbl): seq<PlutoRecord> {
    if records == [] then []
    else (if records[0].bbl == Some(b) then [records[0]] else []) + OfBbl(records[1..], b)
  }

  lemma {:induction false} OfBblAppend(a: seq<PlutoRecord>, c: seq<PlutoRecord>, b: Bbl)
    ensures OfBbl(a + c, b) == OfBbl(a, b) + OfBbl(c, b)
  {
    if a == [] {
      assert a + c == c;
    } else {
      assert (a + c)[0] == a[0] && (a + c)[1..] == a[1..] + c;
      OfBblAppend(a[1..], c, b);
      var head := if a[0].bbl == Some(b) then [a[0]] else [];
      assert OfBbl(a + c, b) == head + OfBbl(a[1..] + c, b) == head + (OfBbl(a[1..], b) + OfBbl(c, b));
      assert OfBbl(a, b) == head + OfBbl(a[1..], b);
    }
  }

  /** One lookup reads at most two records. */
  function PlutoOne(records: seq<PlutoRecord>, b: Bbl): PlutoLookup {
    Classify(CountAll(NO_RECORDS, PageAt(OfBbl(records, b), 0, PLUTO_LIMIT)))
  }

  type Tallies = map<Bbl, Tally>

  ghost predicate TalliedAs(tallies: Tallies, seen: seq<PlutoRecord>) {
    forall b :: TallyOf(tallies, b) == CountAll(NO_RECORDS, OfBbl(seen, b))
  }

  function TallyOf(tallies: Tallies, b: Bbl): Tally {
    if b in tallies then tallies[b] else NO_RECORDS
  }

  lemma OfBblOneMore(seen: seq<PlutoRecord>, r: PlutoRecord, b: Bbl)
    ensures CountAll(NO_RECORDS, OfBbl(seen + [r], b))
            == if r.bbl == Some(b) then Count(CountAll(NO_RECORDS, OfBbl(seen, b)), r)
               else CountAll(NO_RECORDS, OfBbl(seen, b))
  {
    OfBblAppend(seen, [r], b);
    assert [r][1..] == [];
    if r.bbl == Some(b) {
      var t := CountAll(NO_RECORDS, OfBbl(seen, b));
      CountAppend(NO_RECORDS, OfBbl(seen, b), [r]);
      assert OfBbl([r], b) == [r];
      assert CountAll(t, [r]) == CountAll(Count(t, r), []);
    } else {
      assert OfBbl([r], b) == [];
      assert OfBbl(seen, b) + [] == OfBbl(seen, b);
    }
  }

  /** One record more: it counts under its BBL, if that can be read, and nowhere else. */
  lemma TallyOneMore(before: Tallies, after: Tallies, seen: seq<PlutoRecord>, r: PlutoRecord)
    requires TalliedAs(before, seen)
    requires forall b: Bbl ::
               TallyOf(after, b) == if r.bbl == Some(b) then Count(TallyOf(before, b), r) else TallyOf(before, b)
    ensures TalliedAs(after, seen + [r])
  {
    hide Count, CountAll, OfBbl, TallyOf;
    forall b ensures TallyOf(after, b) == CountAll(NO_RECORDS, OfBbl(seen + [r], b)) {
      OfBblOneMore(seen, r, b);
      assert TallyOf(before, b) == CountAll(NO_RECORDS, OfBbl(seen, b));
    }
  }

  lemma NoneTallied()
    ensures TalliedAs(map[], [])
  {
  }

  /** The records of one bulk chunk, tallied by BBL; a record without a readable BBL is passed over. */
  method TallyRecords(records: seq<PlutoRecord>) returns (tallies: Tallies)
    ensures TalliedAs(tallies, records)
  {
    hide TalliedAs, MergeReasons, ReasonsOf;
    NoneTallied();
    tallies := map[];
    var i := 0;
    assert records[..0] == [];
    while i < |records|
      invariant i <= |records| && TalliedAs(tallies, records[..i])
    {
      var r := records[i];
      var assessment := AssessPlutoRecord(r);
      ghost var before := tallies;
      if assessment.Complete? {
        var existing := TallyOf(tallies, assessment.parcel.bbl);
        tallies := tallies[assessment.parcel.bbl := existing.(parcels := existing.parcels + [assessment.parcel])];
      } else if assessment.rawBbl.Some? {
        var existing := TallyOf(tallies, assessment.rawBbl.value);
        tallies := tallies[assessment.rawBbl.value :=
                           existing.(reasons := MergeReasons(existing.reasons, assessment.reasons))];
      }
      TallyOneMore(before, tallies, records[..i], r);
      assert records[..i + 1] == records[..i] + [r];
      i := i + 1;
    }
    assert records[..i] == records;
  }

  function ChunkEnd(count: nat, index: nat): (end: nat)
    requires index < count
    ensures index < end <= count
  {
    if count <= index + CHUNK_SIZE then count else index + CHUNK_SIZE
  }

  lemma ChunkJoins(sorted: seq<Bbl>, index: nat, end: nat)
    requires index <= end <= |sorted|
    ensures ToSet(sorted[..end]) == ToSet(sorted[..index]) + ToSet(sorted[index..end])
  {
    assert sorted[..end] == sorted[..index] + sorted[index..end];
  }

  // ---- Bulk footprints against single ones ----

  ghost predicate AllOk(records: seq<FootprintRecord>) {
    forall r :: r in records ==> r.Ok()
  }

  /** A bulk group has the members of the single answer; a candidate named twice is listed twice. */
  lemma GroupHasSameMembers(records: seq<FootprintRecord>, bbls: set<Bbl>, b: Bbl, mode: LookupMode, x: Candidate)
    requires AllOk(records) && b in bbls
    ensures x in Grouped(Candidates(MatchingAny(records, bbls, mode)), b, mode)
            <==> x in Candidates(MatchingOne(records, b, mode))
  {
    var any, one := MatchingAny(records, bbls, mode), MatchingOne(records, b, mode);
    GroupedMembers(Candidates(any), b, mode, x);
    CandidateMembers(any, x);
    CandidateMembers(one, x);
    if r :| r in any && r.candidate == Some(x) && Listed(x, b, mode) != [] {
      MatchingMembers(records, b, bbls, mode, r);
      assert r in one;
    }
    if r :| r in one && r.candidate == Some(x) {
      MatchingMembers(records, b, bbls, mode, r);
      assert r in any;
    }
  }

  /** What a bulk result for one BBL has in common with the candidates of a single lookup. */
  ghost predicate AgreesWith(lookup: FootprintLookup, candidates: seq<Candidate>) {
    && (lookup.NotFound? <==> candidates == [])
    && (lookup.Found? ==> forall x :: x in lookup.candidates <==> x in candidates)
  }

  ghost predicate ChunkWithin(records: seq<FootprintRecord>, chunk: seq<Bbl>, mode: LookupMode) {
    WithinPages(|MatchingAny(records, ToSet(chunk), mode)|, BulkPageLimit(|chunk|))
  }

  /** Every chunk of the bulk lookup, from `index` on, stays within its page limit. */
  ghost predicate ChunksWithin(records: seq<FootprintRecord>, sorted: seq<Bbl>, mode: LookupMode, index: nat)
    decreases |sorted| - index
  {
    index < |sorted| ==>
      && ChunkWithin(records, sorted[index..ChunkEnd(|sorted|, index)], mode)
      && ChunksWithin(records, sorted, mode, ChunkEnd(|sorted|, index))
  }

  ghost predicate FootprintsAgree(records: seq<FootprintRecord>, mode: LookupMode, results: map<Bbl, FootprintLookup>) {
    forall b :: b in results ==> AgreesWith(results[b], Candidates(MatchingOne(records, b, mode)))
  }

  lemma FootprintsAgreeJoin(records: seq<FootprintRecord>, mode: LookupMode, a: map<Bbl, FootprintLookup>,
                            b: map<Bbl, FootprintLookup>)
    requires FootprintsAgree(records, mode, a) && FootprintsAgree(records, mode, b)
    ensures FootprintsAgree(records, mode, a + b)
  {
    hide AgreesWith, Candidates, MatchingOne;
  }

  lemma EmptyAlike<T(!new)>(a: seq<T>, b: seq<T>)
    requires forall x :: x in a <==> x in b
    ensures a == [] <==> b == []
  {
    if a != [] { assert a[0] in a; }
    if b != [] { assert b[0] in b; }
  }

  /** The groups of one chunk as lookup results. */
  method LookupFootprintsChunk(records: seq<FootprintRecord>, chunk: seq<Bbl>, mode: LookupMode)
    returns (result: Result<map<Bbl, FootprintLookup>>)
    requires chunk != []
    ensures result.Ok? <==> ChunkWithin(records, chunk, mode)
    ensures result.Err? ==> result.error == FootprintsPageLimit
    ensures result.Ok? ==> result.value.Keys == ToSet(chunk)
    ensures result.Ok? && AllOk(records) ==> FootprintsAgree(records, mode, result.value)
  {
    hide MatchingAny, MatchingOne, Candidates, Grouped, AllOk, BulkPageLimit, WithinPages;
    var grouped := FetchBulkLookupCandidates(records, chunk, mode);
    if grouped.Err? {
      return Err(grouped.error);
    }
    var found := map b | b in grouped.value ::
      if grouped.value[b] == [] then NotFound else Found(grouped.value[b]);
    if AllOk(records) {
      forall b | b in found ensures AgreesWith(found[b], Candidates(MatchingOne(records, b, mode))) {
        forall x ensures x in grouped.value[b] <==> x in Candidates(MatchingOne(records, b, mode)) {
          GroupHasSameMembers(records, ToSet(chunk), b, mode, x);
        }
        EmptyAlike(grouped.value[b], Candidates(MatchingOne(records, b, mode)));
      }
    }
    return Ok(found);
  }

  /** Chunk by chunk; the first one over its page limit fails the whole lookup. */
  method LookupFootprintsMany(records: seq<FootprintRecord>, bbls: set<Bbl>, mode: LookupMode)
    returns (result: Result<map<Bbl, FootprintLookup>>)
    ensures result.Ok? <==> ChunksWithin(records, SortedSeq(bbls), mode, 0)
    ensures result.Err? ==> result.error == FootprintsPageLimit
    ensures result.Ok? ==> result.value.Keys == bbls
    ensures result.Ok? && AllOk(records) ==> FootprintsAgree(records, mode, result.value)
  {
    hide ChunkWithin, AllOk, FootprintsAgree, ChunkEnd, Increasing;
    var sorted := SortedSeq(bbls);
    assert ToSet(sorted) == bbls;
    var results: map<Bbl, FootprintLookup> := map[];
    assert FootprintsAgree(records, mode, results) by { NoFootprintsAgree(records, mode); }
    var index := 0;
    while index < |sorted|
      invariant index <= |sorted|
      invariant ChunksWithin(records, sorted, mode, 0) <==> ChunksWithin(records, sorted, mode, index)
      invariant results.Keys == ToSet(sorted[..index])
      invariant AllOk(records) ==> FootprintsAgree(records, mode, results)
    {
      var end := ChunkEnd(|sorted|, index);
      ChunkJoins(sorted, index, end);
      var found := LookupFootprintsChunk(records, sorted[index..end], mode);
      if found.Err? {
        return Err(found.error);
      }
      if AllOk(records) { FootprintsAgreeJoin(records, mode, results, found.value); }
      results := results + found.value;
      index := end;
    }
    assert sorted[..index] == sorted;
    return Ok(results);
  }

  lemma NoFootprintsAgree(records: seq<FootprintRecord>, mode: LookupMode)
    ensures FootprintsAgree(records, mode, map[])
  {
  }
}
