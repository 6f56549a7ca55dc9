/** Registering parcels one at a time and in bulk: the batched path against the simple one. */
module Registration {
  import opened Prelude
  import opened EcbTables
  import opened PlutoBulk
  import opened RegistrationSources
  import TX = EcbTransactions

  // ---- Footprint validation ----

  datatype Mismatch = MapplutoMismatch | BaseMismatch

  datatype FootprintMode = NonCondo | Condo

  /** Why a candidate is rejected for a BBL, if it is. */
  function RejectionOf(x: Candidate, b: Bbl, mode: FootprintMode): Option<Mismatch> {
    match x.mappluto
    case Known(m) => if m != b then Some(MapplutoMismatch) else None
    case Unreadable =>
      if mode.Condo? then Some(MapplutoMismatch) else if x.baseBbl != b then Some(BaseMismatch) else None
    case Absent => if x.baseBbl != b then Some(BaseMismatch) else None
  }

  predicate IsPlaceholder(bin: Bin) { bin % 1_000_000 == 0 }

  function ValidBins(bins: set<Bin>): (r: seq<Bin>)
    ensures Increasing(r)
    ensures forall b :: b in r <==> b in bins && !IsPlaceholder(b)
  {
    SortedSeq(set b | b in bins && !IsPlaceholder(b))
  }

  /** Distinct BINs other than placeholders, sorted. */
  method FilterValidBins(candidates: seq<Bin>) returns (bins: seq<Bin>)
    ensures bins == ValidBins(ToSet(candidates))
  {
    var valid: set<Bin> := {};
    var i := 0;
    while i < |candidates|
      invariant i <= |candidates|
      invariant forall b :: b in valid <==> b in candidates[..i] && !IsPlaceholder(b)
    {
      if !IsPlaceholder(candidates[i]) { valid := valid + {candidates[i]}; }
      i := i + 1;
    }
    assert candidates[..i] == candidates;
    assert valid == set b | b in ToSet(candidates) && !IsPlaceholder(b);
    bins := SortedSeq(valid);
  }

  function AcceptedBins(members: set<Candidate>, b: Bbl, mode: FootprintMode): set<Bin> {
    set x | x in members && RejectionOf(x, b, mode).None? :: x.bin
  }

  predicate SomeRejected(members: set<Candidate>, b: Bbl, mode: FootprintMode, reason: Mismatch) {
    exists x :: x in members && RejectionOf(x, b, mode) == Some(reason)
  }

  predicate SomeAccepted(members: set<Candidate>, b: Bbl, mode: FootprintMode) {
    exists x :: x in members && RejectionOf(x, b, mode).None?
  }

  /** The effective BINs, or the mismatch when nothing is accepted: a function of the set of candidates. */
  function BinsFor(members: set<Candidate>, b: Bbl, mode: FootprintMode): Result<seq<Bin>> {
    if SomeAccepted(members, b, mode) then Ok(ValidBins(AcceptedBins(members, b, mode)))
    else if SomeRejected(members, b, mode, MapplutoMismatch) then Err(FootprintMapplutoMismatch)
    else if SomeRejected(members, b, mode, BaseMismatch) then Err(FootprintBaseMismatch)
    else Ok([])
  }

  method ValidateFootprintCandidates(candidates: seq<Candidate>, b: Bbl, mode: FootprintMode)
    returns (accepted: seq<Candidate>, rejected: seq<Mismatch>)
    ensures forall x :: x in accepted <==> x in candidates && RejectionOf(x, b, mode).None?
    ensures forall reason :: reason in rejected <==> SomeRejected(ToSet(candidates), b, mode, reason)
  {
    accepted, rejected := [], [];
    var i := 0;
    while i < |candidates|
      invariant i <= |candidates|
      invariant forall x :: x in accepted <==> x in candidates[..i] && RejectionOf(x, b, mode).None?
      invariant forall reason :: reason in rejected <==> SomeRejected(ToSet(candidates[..i]), b, mode, reason)
    {
      var x := candidates[i];
      ghost var before := rejected;
      var rejection := RejectionOf(x, b, mode);
      if rejection.Some? {
        rejected := rejected + [rejection.value];
      } else {
        accepted := accepted + [x];
      }
      forall reason ensures reason in rejected <==> SomeRejected(ToSet(candidates[..i + 1]), b, mode, reason) {
        OneMoreRejected(candidates, i, b, mode, reason);
      }
      i := i + 1;
    }
    assert candidates[..i] == candidates;
  }

  lemma OneMoreRejected(candidates: seq<Candidate>, i: nat, b: Bbl, mode: FootprintMode, reason: Mismatch)
    requires i < |candidates|
    ensures SomeRejected(ToSet(candidates[..i + 1]), b, mode, reason)
            <==> SomeRejected(ToSet(candidates[..i]), b, mode, reason)
                 || RejectionOf(candidates[i], b, mode) == Some(reason)
  {
    assert ToSet(candidates[..i + 1]) == ToSet(candidates[..i]) + {candidates[i]};
  }

  /** Validation, agreement check and BIN collection of one parcel's candidates. */
  method ResolveBins(candidates: seq<Candidate>, b: Bbl, mode: FootprintMode) returns (result: Result<seq<Bin>>)
    ensures result == BinsFor(ToSet(candidates), b, mode)
  {
    hide SomeAccepted, SomeRejected, RejectionOf, ValidBins;
    var accepted, rejected := ValidateFootprintCandidates(candidates, b, mode);
    AcceptedOrNot(candidates, accepted, b, mode);
    if |accepted| > 0 {
      var bins := seq(|accepted|, i requires 0 <= i < |accepted| => accepted[i].bin);
      var valid := FilterValidBins(bins);
      BinsOfAccepted(candidates, accepted, bins, b, mode);
      return Ok(valid);
    }
    if MapplutoMismatch in rejected { return Err(FootprintMapplutoMismatch); }
    if BaseMismatch in rejected { return Err(FootprintBaseMismatch); }
    return Ok([]);
  }

  lemma AcceptedOrNot(candidates: seq<Candidate>, accepted: seq<Candidate>, b: Bbl, mode: FootprintMode)
    requires forall x :: x in accepted <==> x in candidates && RejectionOf(x, b, mode).None?
    ensures SomeAccepted(ToSet(candidates), b, mode) <==> accepted != []
  {
    hide RejectionOf;
    if accepted != [] {
      assert accepted[0] in accepted;
      assert accepted[0] in ToSet(candidates);
    }
    if SomeAccepted(ToSet(candidates), b, mode) {
      var x :| x in ToSet(candidates) && RejectionOf(x, b, mode).None?;
      assert x in accepted;
    }
  }

  lemma BinsOfAccepted(candidates: seq<Candidate>, accepted: seq<Candidate>, bins: seq<Bin>, b: Bbl, mode: FootprintMode)
    requires forall x :: x in accepted <==> x in candidates && RejectionOf(x, b, mode).None?
    requires |bins| == |accepted| && forall i :: 0 <= i < |bins| ==> bins[i] == accepted[i].bin
    ensures ToSet(bins) == AcceptedBins(ToSet(candidates), b, mode)
  {
    forall v ensures v in ToSet(bins) <==> v in AcceptedBins(ToSet(candidates), b, mode) {
      if v in bins {
        var i :| 0 <= i < |bins| && bins[i] == v;
        assert accepted[i] in accepted;
      }
      if v in AcceptedBins(ToSet(candidates), b, mode) {
        var x :| x in candidates && RejectionOf(x, b, mode).None? && x.bin == v;
        assert x in accepted;
        var i :| 0 <= i < |accepted| && accepted[i] == x;
        assert bins[i] == v;
      }
    }
  }

  // ---- Resolving one parcel ----

  datatype MatchCount = ZeroMatches | OneMatch(bbl: Bbl) | ManyMatches

  /** The fixed answers of the four sources; the two condominium clients are lookup oracles. */
  datatype Sources = Sources(footprints: seq<FootprintRecord>, pluto: seq<PlutoRecord>,
                             units: map<Bbl, MatchCount>, billings: map<Bbl, MatchCount>)
  {
    function Unit(b: Bbl): MatchCount { if b in units then units[b] else ZeroMatches }
    function Billing(b: Bbl): MatchCount { if b in billings then billings[b] else ZeroMatches }
  }

  datatype Details = Details(address: string, borough: nat, block: nat, lot: nat, condo: Option<(Bbl, Bbl)>)

  datatype Payload = Payload(details: Details, bins: seq<Bin>)

  function RequireParcel(lookup: PlutoLookup): Result<ParcelRecord> {
    match lookup
    case PlutoMissing => Err(PlutoNotFound)
    case PlutoPartial(reasons) => Err(PlutoIncomplete(reasons))
    case PlutoMany => Err(PlutoMultiple)
    case PlutoFound(parcel) => Ok(parcel)
  }

  function BinsOfLookup(lookup: Result<FootprintLookup>, b: Bbl, mode: FootprintMode): Result<seq<Bin>> {
    match lookup
    case Err(e) => Err(e)
    case Ok(NotFound) => Ok([])
    case Ok(Found(candidates)) => BinsFor(ToSet(candidates), b, mode)
  }

  function NonCondoPayload(parcel: ParcelRecord, bins: seq<Bin>): Payload {
    Payload(Details(parcel.address, parcel.borough, parcel.block, parcel.lot, None), bins)
  }

  function CondoPayload(unit: Bbl, base: Bbl, billing: Bbl, parcel: ParcelRecord, bins: seq<Bin>): Payload {
    Payload(Details(parcel.address, Borough(unit), Block(unit), Lot(unit), Some((base, billing))), bins)
  }

  function ResolveNonCondo(pluto: PlutoLookup, footprints: Result<FootprintLookup>, b: Bbl): Result<Payload> {
    match RequireParcel(pluto)
    case Err(e) => Err(e)
    case Ok(parcel) =>
      match BinsOfLookup(footprints, b, NonCondo)
      case Err(e) => Err(e)
      case Ok(bins) => Ok(NonCondoPayload(parcel, bins))
  }

  function CondoIdentity(src: Sources, unit: Bbl): Result<(Bbl, Bbl)> {
    match src.Unit(unit)
    case ZeroMatches => Err(CondoUnitNotFound)
    case ManyMatches => Err(CondoUnitAmbiguous)
    case OneMatch(base) =>
      match src.Billing(base)
      case ZeroMatches => Err(CondoBillingNotFound)
      case ManyMatches => Err(CondoBillingAmbiguous)
      case OneMatch(billing) => Ok((base, billing))
  }

  function ResolveCondo(pluto: PlutoLookup, footprints: Result<FootprintLookup>, unit: Bbl, base: Bbl, billing: Bbl)
    : Result<Payload>
  {
    match RequireParcel(pluto)
    case Err(e) => Err(e)
    case Ok(parcel) =>
      match BinsOfLookup(footprints, billing, Condo)
      case Err(e) => Err(e)
      case Ok(bins) => Ok(CondoPayload(unit, base, billing, parcel, bins))
  }

  /** One parcel, resolved by its own lookups. */
  function Resolution(src: Sources, b: Bbl): Result<Payload> {
    if IsCondoUnit(b) then
      match CondoIdentity(src, b)
      case Err(e) => Err(e)
      case Ok((base, billing)) =>
        ResolveCondo(PlutoOne(src.pluto, billing), LookupOne(src.footprints, base, Base), b, base, billing)
    else ResolveNonCondo(PlutoOne(src.pluto, b), LookupOne(src.footprints, b, Parcel), b)
  }

  /** What the bulk lookup makes of one parcel's rows: rows that do not parse are passed over. */
  function BulkLookupOf(records: seq<FootprintRecord>, b: Bbl, mode: LookupMode): FootprintLookup {
    var candidates := Candidates(MatchingOne(records, b, mode));
    if candidates == [] then NotFound else Found(candidates)
  }

  function NonCondos(bbls: set<Bbl>): set<Bbl> { set b | b in bbls && !IsCondoUnit(b) }

  function CondoUnits(bbls: set<Bbl>): set<Bbl> { set b | b in bbls && IsCondoUnit(b) }

  /** The BBLs whose PLUTO records the bulk service asks for. */
  function PlutoAsked(src: Sources, bbls: set<Bbl>): set<Bbl> {
    NonCondos(bbls) + (set b | b in CondoUnits(bbls) && CondoIdentity(src, b).Ok? :: CondoIdentity(src, b).value.1)
  }

  function BasesAsked(src: Sources, bbls: set<Bbl>): set<Bbl> {
    set b | b in CondoUnits(bbls) && src.Unit(b).OneMatch? :: src.Unit(b).bbl
  }

  /** One parcel, resolved from the bulk lookups for a set of parcels. */
  function BulkResolution(src: Sources, bbls: set<Bbl>, b: Bbl): Result<Payload>
    requires b in bbls
  {
    var asked := PlutoAsked(src, bbls);
    if IsCondoUnit(b) then
      match CondoIdentity(src, b)
      case Err(e) => Err(e)
      case Ok((base, billing)) =>
        ResolveCondo(PlutoInBulk(src.pluto, asked, billing), Ok(BulkLookupOf(src.footprints, base, Base)), b, base, billing)
    else ResolveNonCondo(PlutoInBulk(src.pluto, asked, b), Ok(BulkLookupOf(src.footprints, b, Parcel)), b)
  }

  /** What the bulk lookups returned. */
  datatype Lookups = Lookups(parcels: map<Bbl, FootprintLookup>, pluto: map<Bbl, PlutoLookup>,
                             bases: map<Bbl, FootprintLookup>)

  function PlutoIn(lookups: Lookups, b: Bbl): PlutoLookup {
    if b in lookups.pluto then lookups.pluto[b] else PlutoMissing
  }

  function FootprintsIn(found: map<Bbl, FootprintLookup>, b: Bbl): FootprintLookup {
    if b in found then found[b] else NotFound
  }

  /** One parcel, resolved from what the bulk lookups returned. */
  function ResolutionFrom(lookups: Lookups, src: Sources, b: Bbl): Result<Payload> {
    if IsCondoUnit(b) then
      match CondoIdentity(src, b)
      case Err(e) => Err(e)
      case Ok((base, billing)) =>
        ResolveCondo(PlutoIn(lookups, billing), Ok(FootprintsIn(lookups.bases, base)), b, base, billing)
    else ResolveNonCondo(PlutoIn(lookups, b), Ok(FootprintsIn(lookups.parcels, b)), b)
  }

  datatype Path = Single | Bulk(lookups: Lookups)

  function ResolutionBy(path: Path, src: Sources, b: Bbl): Result<Payload> {
    match path
    case Single => Resolution(src, b)
    case Bulk(lookups) => ResolutionFrom(lookups, src, b)
  }

  /** A parcel lookup asks this many rows of footprints to parse and to fit into its pages. */
  predicate Readable(records: seq<FootprintRecord>, b: Bbl, mode: LookupMode) {
    var answer := MatchingOne(records, b, mode);
    WithinPages(|answer|, LOOKUP_PAGE) && (answer == [] || Candidates(answer) != [])
  }

  /**
   * What is left of the PLUTO rows in bulk says the same as the first two of them, and the footprints
   * are readable if the parcel gets as far as asking for them.
   */
  predicate RowsAlike(src: Sources, asked: set<Bbl>, parcel: Bbl, queried: Bbl, mode: LookupMode)
    requires parcel in asked
  {
    && SameVerdict(BulkRows(src.pluto, asked, parcel), OwnRows(src.pluto, parcel))
    && (PlutoOne(src.pluto, parcel).PlutoFound? ==> Readable(src.footprints, queried, mode))
  }

  /** The rows of a parcel say the same in bulk and on their own, or none are asked for. */
  predicate Alike(src: Sources, bbls: set<Bbl>, b: Bbl)
    requires b in bbls
  {
    if IsCondoUnit(b) then
      match CondoIdentity(src, b)
      case Err(_) => true
      case Ok((base, billing)) => RowsAlike(src, PlutoAsked(src, bbls), billing, base, Base)
    else RowsAlike(src, PlutoAsked(src, bbls), b, b, Parcel)
  }

  lemma BinsForErrors(members: set<Candidate>, b: Bbl, mode: FootprintMode)
    ensures BinsFor(members, b, mode) != Err(FootprintsMalformed) && BinsFor(members, b, mode) != Err(FootprintsPageLimit)
  {
  }

  lemma LookupsAgree(records: seq<FootprintRecord>, queried: Bbl, mode: LookupMode, b: Bbl, footprintMode: FootprintMode)
    ensures BinsOfLookup(LookupOne(records, queried, mode), b, footprintMode)
            == BinsOfLookup(Ok(BulkLookupOf(records, queried, mode)), b, footprintMode)
            <==> Readable(records, queried, mode)
  {
    hide BinsFor, MatchingOne, Candidates;
    var answer := MatchingOne(records, queried, mode);
    assert answer == [] ==> Candidates(answer) == [] by { NoCandidates(); }
    BinsForErrors(ToSet(Candidates(answer)), b, footprintMode);
  }

  lemma NoCandidates()
    ensures Candidates([]) == []
  {
  }

  lemma FootprintErrors(lookup: Result<FootprintLookup>, b: Bbl, mode: FootprintMode)
    requires lookup.Err? ==> lookup.error.FootprintsPageLimit? || lookup.error.FootprintsMalformed?
    ensures var bins := BinsOfLookup(lookup, b, mode);
            bins.Err? ==>
              !bins.error.PlutoNotFound? && !bins.error.PlutoIncomplete? && !bins.error.PlutoMultiple?
  {
  }

  /**
   * Two resolutions of the same parcel from its PLUTO and footprint answers are equal exactly when
   * the PLUTO answers are, and the footprint answers too where they are asked for.
   */
  lemma ResolvedAlike(src: Sources, asked: set<Bbl>, parcel: Bbl, queried: Bbl, mode: LookupMode, named: Bbl,
                      footprintMode: FootprintMode)
    requires parcel in asked
    ensures var p, q := PlutoInBulk(src.pluto, asked, parcel), PlutoOne(src.pluto, parcel);
            var f := BinsOfLookup(Ok(BulkLookupOf(src.footprints, queried, mode)), named, footprintMode);
            var g := BinsOfLookup(LookupOne(src.footprints, queried, mode), named, footprintMode);
            && (RowsAlike(src, asked, parcel, queried, mode) <==> p == q && (q.PlutoFound? ==> f == g))
            && (p.PlutoFound? && q.PlutoFound? ==> p == q)
            && (f.Ok? && g.Ok? ==> f == g)
            && (f.Err? ==> !f.error.PlutoNotFound? && !f.error.PlutoIncomplete? && !f.error.PlutoMultiple?)
            && (g.Err? ==> !g.error.PlutoNotFound? && !g.error.PlutoIncomplete? && !g.error.PlutoMultiple?)
  {
    hide BinsOfLookup, BulkLookupOf, Readable, PlutoOne, PlutoInBulk, SameVerdict, BulkRows, OwnRows, LookupOne;
    PlutoAgreesExactly(src.pluto, asked, parcel);
    LookupsAgree(src.footprints, queried, mode, named, footprintMode);
    OneLookupErrors(src.footprints, queried, mode);
    FootprintErrors(Ok(BulkLookupOf(src.footprints, queried, mode)), named, footprintMode);
    FootprintErrors(LookupOne(src.footprints, queried, mode), named, footprintMode);
    BothReadable(src.footprints, queried, mode, named, footprintMode);
  }

  lemma OneLookupErrors(records: seq<FootprintRecord>, b: Bbl, mode: LookupMode)
    ensures var lookup := LookupOne(records, b, mode);
            lookup.Err? ==> lookup.error.FootprintsPageLimit? || lookup.error.FootprintsMalformed?
  {
  }

  /** A single lookup that gives BINs has read its rows, so the bulk lookup gives the same. */
  lemma BothReadable(records: seq<FootprintRecord>, queried: Bbl, mode: LookupMode, b: Bbl, footprintMode: FootprintMode)
    ensures BinsOfLookup(LookupOne(records, queried, mode), b, footprintMode).Ok? ==> Readable(records, queried, mode)
  {
    hide BinsFor, MatchingOne, Candidates;
  }

  /**
   * Bulk and single resolution of a parcel agree exactly when its rows say the same to both: the PLUTO
   * rows its chunk leaves have the verdict of the first two, and its footprints, where they are asked
   * for, fit the single lookup's pages and are not all unreadable. If both resolve, they agree.
   */
  lemma BulkAgreesExactly(src: Sources, bbls: set<Bbl>, b: Bbl)
    requires b in bbls
    ensures BulkResolution(src, bbls, b) == Resolution(src, b) <==> Alike(src, bbls, b)
    ensures BulkResolution(src, bbls, b).Ok? && Resolution(src, b).Ok? ==> Alike(src, bbls, b)
  {
    hide BinsOfLookup, LookupOne, BulkLookupOf, RowsAlike, PlutoOne, PlutoInBulk, CondoIdentity;
    var asked := PlutoAsked(src, bbls);
    if IsCondoUnit(b) {
      match CondoIdentity(src, b) {
        case Err(_) =>
        case Ok((base, billing)) => ResolvedAlike(src, asked, billing, base, Base, billing, Condo);
      }
    } else {
      ResolvedAlike(src, asked, b, b, Parcel, b, NonCondo);
    }
  }

  // ---- The registry ----

  /** A property row with its relations; `registered` says that its BBL is a stored resolution input. */
  datatype Entry = Entry(details: Details, property: Property, coverage: Option<Coverage>, registered: bool)

  type Registry = map<Bbl, Entry>

  function FindOrCreate(stored: Option<Entry>, payload: Payload): Entry {
    match stored
    case Some(entry) => entry
    case None =>
      var bins := ToSet(payload.bins);
      Entry(payload.details, Property(1, bins), Some(TX.InitialCoverage(bins)), false)
  }

  function ApplyBinSet(entry: Entry, bins: set<Bin>): Entry {
    if entry.property.bins == bins then entry
    else entry.(property := Property(entry.property.version + 1, bins),
                coverage := Some(TX.CoverageAfterBinChange(entry.coverage, bins)))
  }

  /** What persisting a resolution leaves under its BBL; no other BBL is touched. */
  function Persisted(stored: Option<Entry>, payload: Payload): Entry {
    var found := FindOrCreate(stored, payload);
    var applied := if payload.bins == [] then found else ApplyBinSet(found, ToSet(payload.bins));
    applied.(registered := true)
  }

  predicate IsCached(registry: Registry, b: Bbl) { b in registry && registry[b].registered }

  datatype Outcome = Cached | Succeeded | Failed(error: AppError)

  /** One BBL, by either path. */
  function RegisterOne(path: Path, src: Sources, registry: Registry, b: Bbl): (Registry, Outcome) {
    if IsCached(registry, b) then (registry, Cached)
    else
      match ResolutionBy(path, src, b)
      case Err(e) => (registry, Failed(e))
      case Ok(payload) => (registry[b := Persisted(TX.Lookup(registry, b), payload)], Succeeded)
  }

  /** The registry after the simple path has run over a list; an input that is no BBL changes nothing. */
  function RegisterEach(src: Sources, registry: Registry, inputs: seq<Option<Bbl>>): Registry {
    if inputs == [] then registry
    else
      var before := RegisterEach(src, registry, inputs[..|inputs| - 1]);
      var last := inputs[|inputs| - 1];
      if last.None? then before else RegisterOne(Single, src, before, last.value).0
  }

  /** The same in one step: every BBL of the set that is not cached and resolves, on its own. */
  ghost function AfterAll(path: Path, src: Sources, registry: Registry, bbls: set<Bbl>): (after: Registry)
    ensures forall b :: b in after <==> b in registry || (b in bbls && ResolutionBy(path, src, b).Ok?)
    ensures forall b :: b in after ==>
              after[b] == if b in bbls && !IsCached(registry, b) && ResolutionBy(path, src, b).Ok?
                          then Persisted(TX.Lookup(registry, b), ResolutionBy(path, src, b).value) else registry[b]
  {
    var resolved := set b | b in bbls && !IsCached(registry, b) && ResolutionBy(path, src, b).Ok?;
    map b | b in registry.Keys + resolved ::
      if b in resolved then Persisted(TX.Lookup(registry, b), ResolutionBy(path, src, b).value) else registry[b]
  }

  lemma AfterOneMore(path: Path, src: Sources, registry: Registry, bbls: set<Bbl>, b: Bbl)
    ensures RegisterOne(path, src, AfterAll(path, src, registry, bbls), b).0 == AfterAll(path, src, registry, bbls + {b})
  {
    hide ResolutionBy, Persisted, AfterAll;
    var resolution := ResolutionBy(path, src, b);
    var before, after := AfterAll(path, src, registry, bbls), AfterAll(path, src, registry, bbls + {b});
    if b in bbls {
      assert bbls + {b} == bbls;
      if resolution.Ok? { PersistedIsCached(TX.Lookup(registry, b), resolution.value); }
    } else {
      assert b in before <==> b in registry;
      assert TX.Lookup(before, b) == TX.Lookup(registry, b);
      forall o | o != b ensures (o in before <==> o in after) && (o in before ==> before[o] == after[o]) {
        assert o in bbls + {b} <==> o in bbls;
      }
      if IsCached(registry, b) || resolution.Err? {
        assert after == before;
      } else {
        assert after == before[b := Persisted(TX.Lookup(registry, b), resolution.value)];
      }
    }
  }

  lemma PersistedIsCached(stored: Option<Entry>, payload: Payload)
    ensures Persisted(stored, payload).registered
  {
  }

  function ValidBbls(inputs: seq<Option<Bbl>>): set<Bbl> {
    set i | 0 <= i < |inputs| && inputs[i].Some? :: inputs[i].value
  }

  lemma ValidOneMore(inputs: seq<Option<Bbl>>)
    requires inputs != []
    ensures var rest, last := inputs[..|inputs| - 1], inputs[|inputs| - 1];
            ValidBbls(inputs) == ValidBbls(rest) + if last.Some? then {last.value} else {}
  {
    var rest, last := inputs[..|inputs| - 1], inputs[|inputs| - 1];
    forall b | b in ValidBbls(inputs) ensures b in ValidBbls(rest) || last == Some(b) {
      var i :| 0 <= i < |inputs| && inputs[i].Some? && inputs[i].value == b;
      if i < |rest| { assert rest[i] == inputs[i]; }
    }
    forall b | b in ValidBbls(rest) ensures b in ValidBbls(inputs) {
      var i :| 0 <= i < |rest| && rest[i].Some? && rest[i].value == b;
      assert inputs[i] == rest[i];
    }
    if last.Some? { assert inputs[|inputs| - 1].value in ValidBbls(inputs); }
  }

  /** The order of the list and repetitions in it do not matter. */
  lemma {:induction false} EachIsAfterAll(src: Sources, registry: Registry, inputs: seq<Option<Bbl>>)
    ensures RegisterEach(src, registry, inputs) == AfterAll(Single, src, registry, ValidBbls(inputs))
  {
    hide ResolutionBy, Persisted;
    if inputs == [] {
      assert ValidBbls(inputs) == {};
    } else {
      var rest, last := inputs[..|inputs| - 1], inputs[|inputs| - 1];
      EachIsAfterAll(src, registry, rest);
      ValidOneMore(inputs);
      if last.None? {
        assert ValidBbls(inputs) == ValidBbls(rest);
      } else {
        AfterOneMore(Single, src, registry, ValidBbls(rest), last.value);
      }
    }
  }

  /** What the tables of the ingestion see of a persisted resolution: the two registration transactions. */
  lemma PersistedIsTransactions(c: Config, db: Db, b: Bbl, entry: Entry, payload: Payload)
    requires c.Ok()
    requires b in db.properties ==> entry.property == db.properties[b] && entry.coverage == TX.Lookup(db.coverage, b)
    ensures var stored := if b in db.properties then Some(entry) else None;
            var bins := ToSet(payload.bins);
            var created := TX.Apply(c, db, TX.RegisterProperty(b, bins));
            var after := if payload.bins == [] then created else TX.Apply(c, created, TX.ApplyBins(b, bins));
            && b in after.properties
            && Persisted(stored, payload).property == after.properties[b]
            && Persisted(stored, payload).coverage == TX.Lookup(after.coverage, b)
  {
    hide TX.InitialCoverage, TX.CoverageAfterBinChange;
  }

  /**
   * Resolving again to the same BINs changes neither version nor coverage; and whatever is resolved,
   * the version rises by one at most, and only with another BIN set.
   */
  lemma ResolvingAgain(stored: Option<Entry>, payload: Payload)
    ensures var once := Persisted(stored, payload); Persisted(Some(once), payload) == once
    ensures stored.Some? ==>
              var before, after := stored.value.property, Persisted(stored, payload).property;
              && after.version == before.version + (if after.bins == before.bins then 0 else 1)
              && (after.bins == before.bins ==> Persisted(stored, payload).coverage == stored.value.coverage)
              && (payload.bins == [] ==> after == before)
              && (payload.bins != [] ==> after.bins == ToSet(payload.bins))
  {
  }

  // ---- The bulk service ----

  datatype Summary = Summary(submitted: nat, unique: nat, succeeded: nat, failed: nat, cached: nat)

  function Tried(outcomes: seq<Outcome>, which: Outcome -> bool): nat {
    if outcomes == [] then 0
    else Tried(outcomes[..|outcomes| - 1], which) + if which(outcomes[|outcomes| - 1]) then 1 else 0
  }

  /** What the bulk answer says of one input. */
  function Reported(lookups: Lookups, src: Sources, registry: Registry, input: Option<Bbl>): Outcome {
    match input
    case None => Failed(InvalidBbl)
    case Some(b) => RegisterOne(Bulk(lookups), src, registry, b).1
  }

  /** The bulk footprint lookups stay within their page limits. */
  ghost predicate BulkFits(src: Sources, bbls: set<Bbl>) {
    && ChunksWithin(src.footprints, SortedSeq(NonCondos(bbls)), Parcel, 0)
    && ChunksWithin(src.footprints, SortedSeq(BasesAsked(src, bbls)), Base, 0)
  }

  function Uncached(registry: Registry, bbls: set<Bbl>): set<Bbl> {
    set b | b in bbls && !IsCached(registry, b)
  }

  /** The lookups answer what was asked: footprints like single lookups, PLUTO from what its limit leaves. */
  ghost predicate Answered(src: Sources, bbls: set<Bbl>, lookups: Lookups) {
    && lookups.parcels.Keys == NonCondos(bbls)
    && lookups.bases.Keys == BasesAsked(src, bbls)
    && lookups.pluto.Keys == PlutoAsked(src, bbls)
    && (AllOk(src.footprints) ==>
          && FootprintsAgree(src.footprints, Parcel, lookups.parcels)
          && FootprintsAgree(src.footprints, Base, lookups.bases))
    && (forall b :: b in PlutoAsked(src, bbls) ==> lookups.pluto[b] == PlutoInBulk(src.pluto, PlutoAsked(src, bbls), b))
  }

  lemma AgreeingLookup(records: seq<FootprintRecord>, lookup: FootprintLookup, queried: Bbl, mode: LookupMode, b: Bbl,
                       footprintMode: FootprintMode)
    requires AgreesWith(lookup, Candidates(MatchingOne(records, queried, mode)))
    ensures BinsOfLookup(Ok(lookup), b, footprintMode)
            == BinsOfLookup(Ok(BulkLookupOf(records, queried, mode)), b, footprintMode)
  {
    hide BinsFor, MatchingOne, Candidates;
    if lookup.Found? {
      assert ToSet(lookup.candidates) == ToSet(Candidates(MatchingOne(records, queried, mode)));
    }
  }

  /** What the bulk lookups returned resolves a parcel as its own rows, as far as served, do. */
  lemma AnsweredResolves(src: Sources, bbls: set<Bbl>, lookups: Lookups, b: Bbl)
    requires AllOk(src.footprints) && Answered(src, bbls, lookups) && b in bbls
    ensures ResolutionFrom(lookups, src, b) == BulkResolution(src, bbls, b)
  {
    hide PlutoInBulk, BinsOfLookup, MatchingOne, Candidates, BulkLookupOf, AgreesWith, AllOk;
    if IsCondoUnit(b) {
      match CondoIdentity(src, b) {
        case Err(_) =>
        case Ok((base, billing)) =>
          assert billing in PlutoAsked(src, bbls) && base in BasesAsked(src, bbls);
          AgreeingLookup(src.footprints, lookups.bases[base], base, Base, billing, Condo);
      }
    } else {
      AgreeingLookup(src.footprints, lookups.parcels[b], b, Parcel, b, NonCondo);
    }
  }

  method LookUpAll(src: Sources, bbls: set<Bbl>) returns (result: Result<Lookups>)
    ensures result.Ok? <==> BulkFits(src, bbls)
    ensures result.Err? ==> result.error == FootprintsPageLimit
    ensures result.Ok? ==> Answered(src, bbls, result.value)
  {
    hide FootprintsAgree, PlutoInBulk, ChunksWithin, AllOk;
    var parcels := LookupFootprintsMany(src.footprints, NonCondos(bbls), Parcel);
    if parcels.Err? { return Err(parcels.error); }
    var pluto := LookupPlutoMany(src.pluto, PlutoAsked(src, bbls));
    var bases := LookupFootprintsMany(src.footprints, BasesAsked(src, bbls), Base);
    if bases.Err? { return Err(bases.error); }
    return Ok(Lookups(parcels.value, pluto, bases.value));
  }

  /** Payloads and failures of the parcels resolved so far. */
  ghost predicate ResolvedAs(lookups: Lookups, src: Sources, done: set<Bbl>, payloads: map<Bbl, Payload>,
                             failures: map<Bbl, AppError>) {
    && payloads.Keys + failures.Keys == done
    && (forall b :: b in payloads ==> ResolutionFrom(lookups, src, b) == Ok(payloads[b]))
    && (forall b :: b in failures ==> ResolutionFrom(lookups, src, b) == Err(failures[b]))
  }

  lemma ResolvedOneMore(lookups: Lookups, src: Sources, done: set<Bbl>, payloads: map<Bbl, Payload>,
                        failures: map<Bbl, AppError>, b: Bbl)
    requires ResolvedAs(lookups, src, done, payloads, failures)
    ensures var resolution := ResolutionFrom(lookups, src, b);
            && (resolution.Ok? ==> ResolvedAs(lookups, src, done + {b}, payloads[b := resolution.value], failures))
            && (resolution.Err? ==> ResolvedAs(lookups, src, done + {b}, payloads, failures[b := resolution.error]))
  {
    hide ResolutionFrom;
  }

  /** Resolves each parcel from the lookups; an error of one parcel is kept with it and stops no other. */
  method ResolveEach(lookups: Lookups, src: Sources, bbls: set<Bbl>)
    returns (payloads: map<Bbl, Payload>, failures: map<Bbl, AppError>)
    ensures ResolvedAs(lookups, src, bbls, payloads, failures)
  {
    hide ResolutionFrom, ResolvedAs;
    payloads, failures := map[], map[];
    assert ResolvedAs(lookups, src, {}, payloads, failures) by { NothingResolved(lookups, src); }
    var left := bbls;
    assert bbls - left == {};
    while left != {}
      invariant left <= bbls && ResolvedAs(lookups, src, bbls - left, payloads, failures)
      decreases |left|
    {
      var b := Least(left);
      ResolvedOneMore(lookups, src, bbls - left, payloads, failures, b);
      match ResolutionFrom(lookups, src, b) {
        case Ok(payload) => payloads := payloads[b := payload];
        case Err(error) => failures := failures[b := error];
      }
      assert bbls - (left - {b}) == bbls - left + {b};
      left := left - {b};
    }
    assert bbls - left == bbls;
  }

  lemma NothingResolved(lookups: Lookups, src: Sources)
    ensures ResolvedAs(lookups, src, {}, map[], map[])
  {
  }

  /** The failures of a set of parcels, by BBL. */
  ghost predicate Failures(lookups: Lookups, src: Sources, bbls: set<Bbl>, failures: map<Bbl, AppError>) {
    && failures.Keys <= bbls
    && forall b :: b in bbls ==> (b in failures <==> ResolutionFrom(lookups, src, b).Err?)
                                 && (b in failures ==> ResolutionFrom(lookups, src, b) == Err(failures[b]))
  }

  lemma ResolvedApart(lookups: Lookups, src: Sources, bbls: set<Bbl>, payloads: map<Bbl, Payload>,
                      failures: map<Bbl, AppError>)
    requires ResolvedAs(lookups, src, bbls, payloads, failures)
    ensures Failures(lookups, src, bbls, failures)
    ensures payloads.Keys == set b | b in bbls && ResolutionFrom(lookups, src, b).Ok?
    ensures forall b :: b in payloads ==> ResolutionFrom(lookups, src, b) == Ok(payloads[b])
  {
    hide ResolutionFrom;
    forall b | b in bbls ensures b in payloads <==> ResolutionFrom(lookups, src, b).Ok? {
      assert b in payloads.Keys + failures.Keys;
    }
  }

  lemma FailuresJoin(lookups: Lookups, src: Sources, a: set<Bbl>, f: map<Bbl, AppError>, b: set<Bbl>, g: map<Bbl, AppError>)
    requires Failures(lookups, src, a, f) && Failures(lookups, src, b, g) && a !! b
    ensures Failures(lookups, src, a + b, f + g)
  {
    hide ResolutionFrom;
  }

  lemma FailureKnown(lookups: Lookups, src: Sources, start: Registry, bbls: set<Bbl>, failures: map<Bbl, AppError>, b: Bbl)
    requires Failures(lookups, src, Uncached(start, bbls), failures) && b in bbls
    ensures b in failures ==> RegisterOne(Bulk(lookups), src, start, b).1 == Failed(failures[b])
    ensures b !in failures ==>
              RegisterOne(Bulk(lookups), src, start, b).1 == if IsCached(start, b) then Cached else Succeeded
  {
    hide ResolutionFrom, Persisted;
  }

  lemma NotYetDone(path: Path, src: Sources, start: Registry, done: set<Bbl>, b: Bbl)
    requires b !in done
    ensures TX.Lookup(AfterAll(path, src, start, done), b) == TX.Lookup(start, b)
    ensures IsCached(AfterAll(path, src, start, done), b) <==> IsCached(start, b)
  {
    hide AfterAll, ResolutionBy, Persisted;
  }

  lemma NothingDone(path: Path, src: Sources, start: Registry)
    ensures start == AfterAll(path, src, start, {})
  {
    hide ResolutionBy, Persisted;
  }

  /** Parcels that fail to resolve leave the registry as it was. */
  lemma FailedChangeNothing(path: Path, src: Sources, start: Registry, bbls: set<Bbl>, persisted: set<Bbl>)
    requires persisted == set b | b in bbls && ResolutionBy(path, src, b).Ok?
    ensures AfterAll(path, src, start, persisted) == AfterAll(path, src, start, bbls)
  {
    hide ResolutionBy, Persisted, AfterAll;
  }

  lemma CachedChangeNothing(path: Path, src: Sources, start: Registry, bbls: set<Bbl>)
    ensures AfterAll(path, src, start, Uncached(start, bbls)) == AfterAll(path, src, start, bbls)
  {
    hide ResolutionBy, Persisted, AfterAll;
  }

  class BulkPropertyRegistrationService {
    var registry: Registry

    constructor (stored: Registry)
      ensures registry == stored
    {
      registry := stored;
    }

    /** The registry holds the outcome for these BBLs, and for the others what it started with. */
    ghost predicate Stands(lookups: Lookups, src: Sources, start: Registry, done: set<Bbl>)
      reads this
    {
      registry == AfterAll(Bulk(lookups), src, start, done)
    }

    method Persist(b: Bbl, payload: Payload, ghost lookups: Lookups, ghost src: Sources, ghost start: Registry,
                   ghost done: set<Bbl>)
      requires ResolutionFrom(lookups, src, b) == Ok(payload) && !IsCached(start, b) && b !in done
      requires Stands(lookups, src, start, done)
      modifies this`registry
      ensures Stands(lookups, src, start, done + {b})
    {
      hide Persisted, ResolutionFrom, AfterAll;
      AfterOneMore(Bulk(lookups), src, start, done, b);
      NotYetDone(Bulk(lookups), src, start, done, b);
      registry := registry[b := Persisted(TX.Lookup(registry, b), payload)];
    }

    /** Persists payloads one after another, each in its own transactions. */
    method PersistAll(payloads: map<Bbl, Payload>, ghost lookups: Lookups, ghost src: Sources, ghost start: Registry,
                      ghost done: set<Bbl>)
      requires forall b :: b in payloads ==>
                 ResolutionFrom(lookups, src, b) == Ok(payloads[b]) && !IsCached(start, b) && b !in done
      requires Stands(lookups, src, start, done)
      modifies this`registry
      ensures Stands(lookups, src, start, done + payloads.Keys)
    {
      hide Stands, ResolutionFrom, IsCached;
      var left := payloads.Keys;
      ghost var finished := done;
      while left != {}
        invariant left <= payloads.Keys && left !! finished && finished + left == done + payloads.Keys
        invariant Stands(lookups, src, start, finished)
        decreases |left|
      {
        var b := Least(left);
        Persist(b, payloads[b], lookups, src, start, finished);
        left := left - {b};
        finished := finished + {b};
      }
      assert finished == done + payloads.Keys;
    }

    lemma NothingStands(lookups: Lookups, src: Sources, start: Registry)
      requires registry == start
      ensures Stands(lookups, src, start, {})
    {
      NothingDone(Bulk(lookups), src, start);
    }

    lemma StandsAlike(lookups: Lookups, src: Sources, start: Registry, a: set<Bbl>, b: set<Bbl>)
      requires Stands(lookups, src, start, a) && AfterAll(Bulk(lookups), src, start, a) == AfterAll(Bulk(lookups), src, start, b)
      ensures Stands(lookups, src, start, b)
    {
    }

    /** Resolution of the parcels and then the condominium units, then the writes in the same order. */
    method ResolveAndPersist(lookups: Lookups, src: Sources, uncached: set<Bbl>) returns (failures: map<Bbl, AppError>)
      requires forall b :: b in uncached ==> !IsCached(registry, b)
      modifies this`registry
      ensures Stands(lookups, src, old(registry), uncached)
      ensures Failures(lookups, src, uncached, failures)
    {
      hide ResolutionFrom, ResolvedAs, Stands, IsCached, Failures;
      var payloads, parcelFailures := ResolveEach(lookups, src, NonCondos(uncached));
      var condoPayloads, condoFailures := ResolveEach(lookups, src, CondoUnits(uncached));
      ResolvedApart(lookups, src, NonCondos(uncached), payloads, parcelFailures);
      ResolvedApart(lookups, src, CondoUnits(uncached), condoPayloads, condoFailures);
      assert NonCondos(uncached) + CondoUnits(uncached) == uncached;
      FailuresJoin(lookups, src, NonCondos(uncached), parcelFailures, CondoUnits(uncached), condoFailures);
      ghost var start := registry;
      assert Stands(lookups, src, start, {}) by { NothingStands(lookups, src, start); }
      PersistAll(payloads, lookups, src, start, {});
      PersistAll(condoPayloads, lookups, src, start, {} + payloads.Keys);
      FailedChangeNothing(Bulk(lookups), src, start, uncached, {} + payloads.Keys + condoPayloads.Keys);
      StandsAlike(lookups, src, start, {} + payloads.Keys + condoPayloads.Keys, uncached);
      failures := parcelFailures + condoFailures;
    }

    /**
     * The bulk service: cached inputs are answered from the registry, the others resolved together
     * and persisted one by one; every submitted input is answered and counted once. A bulk footprint
     * lookup beyond its page limit fails the whole request before anything is written.
     */
    method RegisterBbls(src: Sources, inputs: seq<Option<Bbl>>)
      returns (result: Result<(Summary, seq<Outcome>)>, ghost lookups: Lookups)
      modifies this`registry
      ensures result.Ok? <==> BulkFits(src, Uncached(old(registry), ValidBbls(inputs)))
      ensures result.Err? ==> result.error == FootprintsPageLimit && registry == old(registry)
      ensures result.Ok? ==>
                && Answered(src, Uncached(old(registry), ValidBbls(inputs)), lookups)
                && registry == AfterAll(Bulk(lookups), src, old(registry), ValidBbls(inputs))
      ensures result.Ok? ==>
                var (summary, results) := result.value;
                && |results| == |inputs|
                && (forall i :: 0 <= i < |inputs| ==> results[i] == Reported(lookups, src, old(registry), inputs[i]))
                && summary.submitted == |inputs|
                && summary.unique == |ValidBbls(inputs)|
                && summary.succeeded == Tried(results, (o: Outcome) => o.Succeeded?)
                && summary.failed == Tried(results, (o: Outcome) => o.Failed?)
                && summary.cached == Tried(results, (o: Outcome) => o.Cached?)
                && summary.succeeded + summary.failed + summary.cached == summary.submitted
    {
      hide BulkFits, AfterAll, ResolutionFrom, Failures, Answered;
      ghost var start := registry;
      var uniqueBbls := SortedSeq(ValidBbls(inputs));
      var cached := set b | b in ValidBbls(inputs) && IsCached(registry, b);
      var uncached := Uncached(registry, ValidBbls(inputs));
      var looked := LookUpAll(src, uncached);
      if looked.Err? {
        lookups := Lookups(map[], map[], map[]);
        return Err(looked.error), lookups;
      }
      lookups := looked.value;
      var failures := ResolveAndPersist(looked.value, src, uncached);
      CachedChangeNothing(Bulk(lookups), src, start, ValidBbls(inputs));
      var summary, results := Report(inputs, cached, failures, lookups, src, start);
      return Ok((summary.(unique := |uniqueBbls|), results)), lookups;
    }

    /** One answer for each submitted input, repeated ones included. */
    method Report(inputs: seq<Option<Bbl>>, cached: set<Bbl>, failures: map<Bbl, AppError>,
                  ghost lookups: Lookups, ghost src: Sources, ghost start: Registry)
      returns (summary: Summary, results: seq<Outcome>)
      requires cached == set b | b in ValidBbls(inputs) && IsCached(start, b)
      requires Failures(lookups, src, Uncached(start, ValidBbls(inputs)), failures)
      ensures |results| == |inputs|
      ensures forall i :: 0 <= i < |inputs| ==> results[i] == Reported(lookups, src, start, inputs[i])
      ensures summary.submitted == |inputs|
      ensures summary.succeeded == Tried(results, (o: Outcome) => o.Succeeded?)
      ensures summary.failed == Tried(results, (o: Outcome) => o.Failed?)
      ensures summary.cached == Tried(results, (o: Outcome) => o.Cached?)
      ensures summary.succeeded + summary.failed + summary.cached == summary.submitted
    {
      hide ResolutionFrom;
      results := [];
      var succeeded, failed, hits := 0, 0, 0;
      var i := 0;
      while i < |inputs|
        invariant i == |results| <= |inputs|
        invariant forall j :: 0 <= j < i ==> results[j] == Reported(lookups, src, start, inputs[j])
        invariant succeeded == Tried(results, (o: Outcome) => o.Succeeded?)
        invariant failed == Tried(results, (o: Outcome) => o.Failed?)
        invariant hits == Tried(results, (o: Outcome) => o.Cached?)
        invariant succeeded + failed + hits == i
      {
        var outcome: Outcome;
        if inputs[i].None? {
          outcome := Failed(InvalidBbl);
          failed := failed + 1;
        } else {
          var b := inputs[i].value;
          assert b in ValidBbls(inputs);
          FailureKnown(lookups, src, start, ValidBbls(inputs), failures, b);
          if b in failures {
            outcome := Failed(failures[b]);
            failed := failed + 1;
          } else if b in cached {
            outcome := Cached;
            hits := hits + 1;
          } else {
            outcome := Succeeded;
            succeeded := succeeded + 1;
          }
        }
        assert (results + [outcome])[..|results|] == results;
        results := results + [outcome];
        i := i + 1;
      }
      summary := Summary(|inputs|, 0, succeeded, failed, hits);
    }
  }

  // ---- Bulk against single ----

  /** The rows of every BBL that has to be resolved say the same in bulk and on their own. */
  ghost predicate AllAlike(src: Sources, registry: Registry, inputs: seq<Option<Bbl>>) {
    var uncached := Uncached(registry, ValidBbls(inputs));
    forall b :: b in uncached ==> Alike(src, uncached, b)
  }

  ghost predicate ReportsAlike(lookups: Lookups, src: Sources, registry: Registry, inputs: seq<Option<Bbl>>) {
    forall i :: 0 <= i < |inputs| && inputs[i].Some? ==>
      Reported(lookups, src, registry, inputs[i]) == RegisterOne(Single, src, registry, inputs[i].value).1
  }

  lemma OutcomeExactly(lookups: Lookups, src: Sources, registry: Registry, uncached: set<Bbl>, b: Bbl)
    requires AllOk(src.footprints) && Answered(src, uncached, lookups)
    requires b in uncached && !IsCached(registry, b)
    ensures RegisterOne(Bulk(lookups), src, registry, b).1 == RegisterOne(Single, src, registry, b).1
            <==> Alike(src, uncached, b)
    ensures Alike(src, uncached, b) ==> ResolutionFrom(lookups, src, b) == Resolution(src, b)
  {
    hide BulkResolution, Resolution, ResolutionFrom, Persisted, Answered, AllOk, Alike;
    AnsweredResolves(src, uncached, lookups, b);
    BulkAgreesExactly(src, uncached, b);
  }

  /**
   * Registering a list in bulk reports for each BBL what resolving it singly reports, exactly when
   * the rows of each BBL that has to be resolved say the same to both paths; and then it leaves the
   * same properties, BINs, versions and coverage as resolving them one by one in the order of the list.
   */
  lemma BulkIsEachSingle(lookups: Lookups, src: Sources, registry: Registry, inputs: seq<Option<Bbl>>)
    requires AllOk(src.footprints)
    requires Answered(src, Uncached(registry, ValidBbls(inputs)), lookups)
    ensures ReportsAlike(lookups, src, registry, inputs) <==> AllAlike(src, registry, inputs)
    ensures AllAlike(src, registry, inputs) ==>
              AfterAll(Bulk(lookups), src, registry, ValidBbls(inputs)) == RegisterEach(src, registry, inputs)
  {
    hide BulkResolution, Resolution, ResolutionFrom, Alike, Persisted, Answered, AllOk, RegisterOne, AfterAll;
    var uncached := Uncached(registry, ValidBbls(inputs));
    forall b | b in uncached
      ensures RegisterOne(Bulk(lookups), src, registry, b).1 == RegisterOne(Single, src, registry, b).1
              <==> Alike(src, uncached, b)
      ensures Alike(src, uncached, b) ==> ResolutionFrom(lookups, src, b) == Resolution(src, b)
    {
      OutcomeExactly(lookups, src, registry, uncached, b);
    }
    forall i | 0 <= i < |inputs| && inputs[i].Some?
      ensures inputs[i].value in ValidBbls(inputs)
      ensures inputs[i].value !in uncached ==>
                Reported(lookups, src, registry, inputs[i]) == RegisterOne(Single, src, registry, inputs[i].value).1
    {
      CachedAlike(lookups, src, registry, inputs[i].value);
    }
    if ReportsAlike(lookups, src, registry, inputs) {
      forall b | b in uncached ensures Alike(src, uncached, b) {
        var i :| 0 <= i < |inputs| && inputs[i].Some? && inputs[i].value == b;
        assert Reported(lookups, src, registry, inputs[i]) == RegisterOne(Single, src, registry, inputs[i].value).1;
      }
    }
    if AllAlike(src, registry, inputs) {
      EachIsAfterAll(src, registry, inputs);
      SameResolutionsSameRegistry(lookups, src, registry, ValidBbls(inputs));
    }
  }

  /** The footprints an uncached BBL asks for parse, at least one of them, and fit the single lookup's pages. */
  predicate FootprintsReadable(src: Sources, b: Bbl) {
    if IsCondoUnit(b) then CondoIdentity(src, b).Ok? ==> Readable(src.footprints, CondoIdentity(src, b).value.0, Base)
    else Readable(src.footprints, b, Parcel)
  }

  /** Readable footprints and at most two PLUTO rows for each BBL asked for are enough. */
  lemma TwoRowsEachAlike(src: Sources, registry: Registry, inputs: seq<Option<Bbl>>)
    requires var uncached := Uncached(registry, ValidBbls(inputs));
             && (forall b :: b in PlutoAsked(src, uncached) ==> |OfBbl(src.pluto, b)| <= PLUTO_LIMIT)
             && (forall b :: b in uncached ==> FootprintsReadable(src, b))
    ensures AllAlike(src, registry, inputs)
  {
    hide SameVerdict, BulkRows, OwnRows, OfBbl, Readable, Uncached, ValidBbls;
    var uncached := Uncached(registry, ValidBbls(inputs));
    var asked := PlutoAsked(src, uncached);
    forall b | b in asked ensures SameVerdict(BulkRows(src.pluto, asked, b), OwnRows(src.pluto, b)) {
      TwoEachSuffice(src.pluto, asked, b);
      PlutoAgreesExactly(src.pluto, asked, b);
    }
    forall b | b in uncached ensures Alike(src, uncached, b) {
      assert FootprintsReadable(src, b);
    }
  }

  lemma CachedAlike(lookups: Lookups, src: Sources, registry: Registry, b: Bbl)
    ensures IsCached(registry, b) ==>
              RegisterOne(Bulk(lookups), src, registry, b).1 == RegisterOne(Single, src, registry, b).1
  {
    hide ResolutionBy, Persisted;
  }

  lemma SameResolutionsSameRegistry(lookups: Lookups, src: Sources, registry: Registry, bbls: set<Bbl>)
    requires forall b :: b in bbls && !IsCached(registry, b) ==> ResolutionFrom(lookups, src, b) == Resolution(src, b)
    ensures AfterAll(Bulk(lookups), src, registry, bbls) == AfterAll(Single, src, registry, bbls)
  {
    hide ResolutionFrom, Resolution, Persisted;
  }
}
