/**
 * The bulk PLUTO lookup against single ones: what its row limit leaves of each BBL, and exactly when
 * that is classified as the BBL's own lookup would be.
 */
module PlutoBulk {
  import opened Prelude
  import opened RegistrationSources

  // ---- What one request serves ----

  /** The rows of a chunk ordered by BBL; rows of one BBL stay in the order its own lookup has. */
  function InOrder(records: seq<PlutoRecord>, chunk: seq<Bbl>): seq<PlutoRecord> {
    if chunk == [] then [] else OfBbl(records, chunk[0]) + InOrder(records, chunk[1..])
  }

  lemma {:induction false} OfBblMembers(records: seq<PlutoRecord>, b: Bbl, r: PlutoRecord)
    ensures r in OfBbl(records, b) <==> r in records && r.bbl == Some(b)
  {
    if records != [] { OfBblMembers(records[1..], b, r); }
  }

  predicate NotAfter(r: PlutoRecord, s: PlutoRecord) {
    r.bbl.Some? && s.bbl.Some? && r.bbl.value <= s.bbl.value
  }

  predicate ByBbl(rows: seq<PlutoRecord>) {
    forall i, j :: 0 <= i < j < |rows| ==> NotAfter(rows[i], rows[j])
  }

  /** The ordered rows are the rows asked for, and no row stands before one of a smaller BBL. */
  lemma {:induction false} InOrderSorted(records: seq<PlutoRecord>, chunk: seq<Bbl>)
    requires Increasing(chunk)
    ensures forall r :: r in InOrder(records, chunk) <==> r in records && r.bbl.Some? && r.bbl.value in chunk
    ensures ByBbl(InOrder(records, chunk))
  {
    if chunk != [] {
      InOrderSorted(records, chunk[1..]);
      var first, rest := OfBbl(records, chunk[0]), InOrder(records, chunk[1..]);
      forall r ensures r in first <==> r in records && r.bbl == Some(chunk[0]) { OfBblMembers(records, chunk[0], r); }
      assert forall x :: x in chunk[1..] ==> chunk[0] < x;
      forall i, j | 0 <= i < j < |first + rest|
        ensures NotAfter((first + rest)[i], (first + rest)[j])
      {
        if j < |first| {
          assert first[i] in first && first[j] in first;
        } else if i < |first| {
          assert first[i] in first && rest[j - |first|] in rest;
        } else {
          assert NotAfter(rest[i - |first|], rest[j - |first|]);
        }
      }
    }
  }

  /** What one request returns: at most twice as many rows as BBLs asked for. */
  function BulkAnswer(records: seq<PlutoRecord>, chunk: seq<Bbl>): seq<PlutoRecord> {
    PageAt(InOrder(records, chunk), 0, PLUTO_LIMIT * |chunk|)
  }

  /** Nothing is cut off exactly when there are at most twice as many rows as BBLs. */
  lemma WholeAnswerExactly(records: seq<PlutoRecord>, chunk: seq<Bbl>)
    ensures BulkAnswer(records, chunk) == InOrder(records, chunk)
            <==> |InOrder(records, chunk)| <= PLUTO_LIMIT * |chunk|
  {
  }

  /** Rows of the BBLs that sort before `b`. */
  function RowsBefore(records: seq<PlutoRecord>, chunk: seq<Bbl>, b: Bbl): nat {
    if chunk == [] || chunk[0] == b then 0
    else |OfBbl(records, chunk[0])| + RowsBefore(records, chunk[1..], b)
  }

  function Within(limit: int, count: nat): (n: nat)
    ensures n <= count
  {
    if limit < 0 then 0 else if limit < count then limit else count
  }

  /** What the row limit leaves of the rows of `b`. */
  function Served(records: seq<PlutoRecord>, chunk: seq<Bbl>, b: Bbl): seq<PlutoRecord> {
    var own := OfBbl(records, b);
    own[..Within(PLUTO_LIMIT * |chunk| - RowsBefore(records, chunk, b), |own|)]
  }

  lemma {:induction false} OfBblAll(rows: seq<PlutoRecord>, b: Bbl)
    requires forall r :: r in rows ==> r.bbl == Some(b)
    ensures OfBbl(rows, b) == rows
  {
    if rows != [] {
      assert rows[0] in rows;
      OfBblAll(rows[1..], b);
    }
  }

  lemma {:induction false} OfBblNone(rows: seq<PlutoRecord>, b: Bbl)
    requires forall r :: r in rows ==> r.bbl != Some(b)
    ensures OfBbl(rows, b) == []
  {
    if rows != [] {
      assert rows[0] in rows;
      OfBblNone(rows[1..], b);
    }
  }

  lemma PrefixOfOne(records: seq<PlutoRecord>, a: Bbl, b: Bbl, k: nat)
    requires k <= |OfBbl(records, a)|
    ensures OfBbl(OfBbl(records, a)[..k], b) == if a == b then OfBbl(records, a)[..k] else []
  {
    var rows := OfBbl(records, a)[..k];
    forall r | r in rows ensures r.bbl == Some(a) {
      assert r in OfBbl(records, a);
      OfBblMembers(records, a, r);
    }
    if a == b { OfBblAll(rows, b); } else { OfBblNone(rows, b); }
  }

  lemma {:induction false} PrefixWithout(records: seq<PlutoRecord>, chunk: seq<Bbl>, b: Bbl, k: nat)
    requires b !in chunk && k <= |InOrder(records, chunk)|
    ensures OfBbl(InOrder(records, chunk)[..k], b) == []
  {
    if chunk != [] {
      var first, rest := OfBbl(records, chunk[0]), InOrder(records, chunk[1..]);
      var n := Within(k, |first|);
      assert (first + rest)[..k] == first[..n] + rest[..k - n];
      OfBblAppend(first[..n], rest[..k - n], b);
      PrefixOfOne(records, chunk[0], b, n);
      PrefixWithout(records, chunk[1..], b, k - n);
    }
  }

  lemma {:induction false} PrefixServes(records: seq<PlutoRecord>, chunk: seq<Bbl>, b: Bbl, k: nat)
    requires Increasing(chunk) && b in chunk && k <= |InOrder(records, chunk)|
    ensures var own := OfBbl(records, b);
            OfBbl(InOrder(records, chunk)[..k], b) == own[..Within(k - RowsBefore(records, chunk, b), |own|)]
  {
    hide OfBbl;
    var first, rest := OfBbl(records, chunk[0]), InOrder(records, chunk[1..]);
    var n := Within(k, |first|);
    assert (first + rest)[..k] == first[..n] + rest[..k - n];
    OfBblAppend(first[..n], rest[..k - n], b);
    PrefixOfOne(records, chunk[0], b, n);
    if chunk[0] == b {
      PrefixWithout(records, chunk[1..], b, k - n);
    } else {
      PrefixServes(records, chunk[1..], b, k - n);
    }
  }

  /** The rows of a BBL that a request returns are what the limit leaves after the smaller BBLs. */
  lemma AnswerServes(records: seq<PlutoRecord>, chunk: seq<Bbl>, b: Bbl)
    requires Increasing(chunk) && b in chunk
    ensures OfBbl(BulkAnswer(records, chunk), b) == Served(records, chunk, b)
  {
    var rows := InOrder(records, chunk);
    var k := |BulkAnswer(records, chunk)|;
    assert BulkAnswer(records, chunk) == rows[..k];
    PrefixServes(records, chunk, b, k);
    if k < PLUTO_LIMIT * |chunk| {
      assert k == |rows|;
      RowsFit(records, chunk, b);
    }
  }

  lemma {:induction false} RowsFit(records: seq<PlutoRecord>, chunk: seq<Bbl>, b: Bbl)
    requires b in chunk
    ensures RowsBefore(records, chunk, b) + |OfBbl(records, b)| <= |InOrder(records, chunk)|
  {
    if chunk[0] != b { RowsFit(records, chunk[1..], b); }
  }

  // ---- Verdicts on prefixes of the same rows ----

  function Completes(rows: seq<PlutoRecord>): nat {
    if rows == [] then 0 else (if Assessed(rows[0]).Complete? then 1 else 0) + Completes(rows[1..])
  }

  function Reasons(rows: seq<PlutoRecord>): set<IncompleteReason> {
    set r, x | r in rows && Assessed(r).Incomplete? && x in ReasonsOf(r) :: x
  }

  /** Both hold one complete row, or both more, or neither any and both the same reasons. */
  predicate SameVerdict(a: seq<PlutoRecord>, b: seq<PlutoRecord>) {
    if Completes(a) == 0 && Completes(b) == 0 then Reasons(a) == Reasons(b)
    else Completes(a) == Completes(b) || (1 < Completes(a) && 1 < Completes(b))
  }

  lemma {:induction false} DistinctOfExtends(s: seq<IncompleteReason>, seen: seq<IncompleteReason>)
    requires Distinct(seen)
    ensures var r := DistinctOf(s, seen); seen <= r && Distinct(r) && ToSet(r) == ToSet(seen) + ToSet(s)
    decreases |s|
  {
    if s == [] {
      assert ToSet(seen) + ToSet(s) == ToSet(seen);
    } else {
      var next := if s[0] in seen then seen else seen + [s[0]];
      DistinctOfExtends(s[1..], next);
      assert ToSet(seen) + ToSet(s) == ToSet(next) + ToSet(s[1..]);
    }
  }

  lemma {:induction false} DistinctOfSkips(left: seq<IncompleteReason>, right: seq<IncompleteReason>,
                                           seen: seq<IncompleteReason>)
    requires Distinct(seen + left)
    ensures DistinctOf(left + right, seen) == DistinctOf(right, seen + left)
    decreases |left|
  {
    if left == [] {
      assert left + right == right && seen + left == seen;
    } else {
      assert (seen + left)[|seen|] == left[0];
      forall i | 0 <= i < |seen| ensures seen[i] != left[0] {
        assert (seen + left)[i] == seen[i];
      }
      assert (left + right)[1..] == left[1..] + right;
      assert seen + [left[0]] + left[1..] == seen + left;
      DistinctOfSkips(left[1..], right, seen + [left[0]]);
    }
  }

  lemma MergeExtends(left: seq<IncompleteReason>, right: seq<IncompleteReason>)
    requires Distinct(left)
    ensures var r := MergeReasons(left, right); left <= r && Distinct(r) && ToSet(r) == ToSet(left) + ToSet(right)
  {
    assert [] + left == left;
    DistinctOfSkips(left, right, []);
    DistinctOfExtends(right, left);
  }

  /** Counting on only appends, and ends with the complete rows and the reasons of what was counted. */
  lemma {:induction false} CountExtends(t: Tally, rows: seq<PlutoRecord>)
    requires Distinct(t.reasons)
    ensures var r := CountAll(t, rows);
            && t.parcels <= r.parcels && |r.parcels| == |t.parcels| + Completes(rows)
            && t.reasons <= r.reasons && Distinct(r.reasons) && ToSet(r.reasons) == ToSet(t.reasons) + Reasons(rows)
    decreases |rows|
  {
    hide MergeReasons;
    if rows == [] {
      assert Reasons(rows) == {};
    } else {
      var r, rest := rows[0], rows[1..];
      MergeExtends(t.reasons, ReasonsOf(r));
      CountExtends(Count(t, r), rest);
      ReasonsSplit(rows);
    }
  }

  lemma ReasonsSplit(rows: seq<PlutoRecord>)
    requires rows != []
    ensures Reasons(rows) == (if Assessed(rows[0]).Incomplete? then ToSet(ReasonsOf(rows[0])) else {}) + Reasons(rows[1..])
  {
    hide Assessed, ReasonsOf;
    forall x ensures x in Reasons(rows) <==>
                       (Assessed(rows[0]).Incomplete? && x in ReasonsOf(rows[0])) || x in Reasons(rows[1..])
    {
      if r :| r in rows && Assessed(r).Incomplete? && x in ReasonsOf(r) {
        assert r == rows[0] || r in rows[1..];
      }
      if r :| r in rows[1..] && Assessed(r).Incomplete? && x in ReasonsOf(r) {
        assert r in rows;
      }
    }
  }

  function Verdict(rows: seq<PlutoRecord>): PlutoLookup {
    Classify(CountAll(NO_RECORDS, rows))
  }

  lemma SameMembersSameList(a: seq<IncompleteReason>, b: seq<IncompleteReason>)
    requires a <= b && Distinct(a) && Distinct(b)
    ensures a == b <==> ToSet(a) == ToSet(b)
  {
    if a != b {
      var x := b[|a|];
      assert x in ToSet(b);
      assert x !in a;
    }
  }

  /** Two prefixes of the same rows are classified alike exactly when they have the same verdict. */
  lemma VerdictsExactly(own: seq<PlutoRecord>, i: nat, j: nat)
    requires i <= j <= |own|
    ensures Verdict(own[..i]) == Verdict(own[..j]) <==> SameVerdict(own[..i], own[..j])
    ensures Verdict(own[..i]).PlutoFound? && Verdict(own[..j]).PlutoFound? ==> Verdict(own[..i]) == Verdict(own[..j])
  {
    hide CountAll, Reasons, Completes;
    var t, u := CountAll(NO_RECORDS, own[..i]), CountAll(NO_RECORDS, own[..j]);
    CountExtends(NO_RECORDS, own[..i]);
    CountExtends(NO_RECORDS, own[..j]);
    assert own[..j] == own[..i] + own[i..j];
    CountAppend(NO_RECORDS, own[..i], own[i..j]);
    CountExtends(t, own[i..j]);
    SameMembersSameList(t.reasons, u.reasons);
    assert ToSet(NO_RECORDS.reasons) == {};
    assert t.reasons == [] <==> ToSet(t.reasons) == {} by { if t.reasons != [] { assert t.reasons[0] in t.reasons; } }
  }

  // ---- The chunked lookup ----

  /** The chunk that asks for `b`. */
  function ChunkOf(sorted: seq<Bbl>, index: nat, b: Bbl): (chunk: seq<Bbl>)
    requires index <= |sorted| && b in sorted[index..]
    ensures b in chunk && forall x :: x in chunk ==> x in sorted
    ensures Increasing(sorted) ==> Increasing(chunk)
    decreases |sorted| - index
  {
    var end := ChunkEnd(|sorted|, index);
    if b in sorted[index..end] then sorted[index..end]
    else
      assert sorted[index..] == sorted[index..end] + sorted[end..];
      ChunkOf(sorted, end, b)
  }

  /** What the bulk lookup of a set of BBLs gets to see of `b`. */
  function BulkRows(records: seq<PlutoRecord>, bbls: set<Bbl>, b: Bbl): seq<PlutoRecord>
    requires b in bbls
  {
    var sorted := SortedSeq(bbls);
    assert sorted[0..] == sorted;
    Served(records, ChunkOf(sorted, 0, b), b)
  }

  /** What its own lookup gets to see of `b`. */
  function OwnRows(records: seq<PlutoRecord>, b: Bbl): seq<PlutoRecord> {
    PageAt(OfBbl(records, b), 0, PLUTO_LIMIT)
  }

  function PlutoInBulk(records: seq<PlutoRecord>, bbls: set<Bbl>, b: Bbl): PlutoLookup
    requires b in bbls
  {
    Verdict(BulkRows(records, bbls, b))
  }

  /**
   * The bulk lookup classifies a BBL as its own lookup does exactly when the rows its chunk leaves of
   * it and its first two rows have the same verdict. If both find a parcel, it is the same one.
   */
  lemma PlutoAgreesExactly(records: seq<PlutoRecord>, bbls: set<Bbl>, b: Bbl)
    requires b in bbls
    ensures PlutoInBulk(records, bbls, b) == PlutoOne(records, b)
            <==> SameVerdict(BulkRows(records, bbls, b), OwnRows(records, b))
    ensures PlutoInBulk(records, bbls, b).PlutoFound? && PlutoOne(records, b).PlutoFound? ==>
              PlutoInBulk(records, bbls, b) == PlutoOne(records, b)
  {
    var own := OfBbl(records, b);
    var i, j := |BulkRows(records, bbls, b)|, |OwnRows(records, b)|;
    assert own[0..] == own && own[0..j] == own[..j];
    VerdictsExactly(own, if i <= j then i else j, if i <= j then j else i);
  }

  /** One chunk of the bulk lookup: one request for twice as many rows as BBLs. */
  method LookupPlutoChunk(records: seq<PlutoRecord>, chunk: seq<Bbl>) returns (results: map<Bbl, PlutoLookup>)
    requires Increasing(chunk)
    ensures results.Keys == ToSet(chunk)
    ensures forall b :: b in results ==> results[b] == Verdict(Served(records, chunk, b))
  {
    var tallies := TallyRecords(BulkAnswer(records, chunk));
    results := map b | b in ToSet(chunk) :: Classify(TallyOf(tallies, b));
    forall b | b in results ensures results[b] == Verdict(Served(records, chunk, b)) {
      AnswerServes(records, chunk, b);
    }
  }

  /** The BBLs before `index` are answered, and the chunks from there on are the ones to come. */
  ghost predicate AnsweredTo(records: seq<PlutoRecord>, bbls: set<Bbl>, sorted: seq<Bbl>, index: nat,
                             results: map<Bbl, PlutoLookup>) {
    && index <= |sorted|
    && results.Keys == ToSet(sorted[..index])
    && (forall b :: b in sorted[index..] ==> b in sorted[0..] && ChunkOf(sorted, index, b) == ChunkOf(sorted, 0, b))
    && (forall b :: b in results ==> b in bbls && results[b] == PlutoInBulk(records, bbls, b))
  }

  lemma FoundInBulk(records: seq<PlutoRecord>, bbls: set<Bbl>, index: nat, b: Bbl)
    requires var sorted := SortedSeq(bbls);
             && index < |sorted| && b in sorted[index..ChunkEnd(|sorted|, index)] && b in sorted[index..] && b in bbls
             && b in sorted[0..] && ChunkOf(sorted, index, b) == ChunkOf(sorted, 0, b)
    ensures PlutoInBulk(records, bbls, b)
            == Verdict(Served(records, SortedSeq(bbls)[index..ChunkEnd(|SortedSeq(bbls)|, index)], b))
  {
    hide Served, Verdict;
  }

  lemma OneMoreChunk(records: seq<PlutoRecord>, bbls: set<Bbl>, sorted: seq<Bbl>, index: nat,
                     results: map<Bbl, PlutoLookup>, found: map<Bbl, PlutoLookup>)
    requires sorted == SortedSeq(bbls) && index < |sorted| && AnsweredTo(records, bbls, sorted, index, results)
    requires found.Keys == ToSet(sorted[index..ChunkEnd(|sorted|, index)])
    requires forall b :: b in found ==> found[b] == Verdict(Served(records, sorted[index..ChunkEnd(|sorted|, index)], b))
    ensures AnsweredTo(records, bbls, sorted, ChunkEnd(|sorted|, index), results + found)
  {
    hide Served, Verdict, PlutoInBulk, ChunkOf, ChunkEnd, SortedSeq, Increasing;
    var end := ChunkEnd(|sorted|, index);
    ChunkJoins(sorted, index, end);
    assert sorted[index..] == sorted[index..end] + sorted[end..];
    forall b | b in found ensures b in bbls && found[b] == PlutoInBulk(records, bbls, b) {
      assert b in sorted[index..end];
      FoundInBulk(records, bbls, index, b);
    }
    forall b | b in sorted[end..] ensures b in sorted[0..] && ChunkOf(sorted, end, b) == ChunkOf(sorted, 0, b) {
      LaterChunk(sorted, index, b);
    }
  }

  /** Chunk by chunk: each BBL is classified by what its chunk leaves of its rows. */
  method LookupPlutoMany(records: seq<PlutoRecord>, bbls: set<Bbl>) returns (results: map<Bbl, PlutoLookup>)
    ensures results.Keys == bbls
    ensures forall b :: b in bbls ==> results[b] == PlutoInBulk(records, bbls, b)
  {
    hide Served, Verdict, ChunkOf, ChunkEnd, Increasing, AnsweredTo, PlutoInBulk;
    var sorted := SortedSeq(bbls);
    assert ToSet(sorted) == bbls && sorted[0..] == sorted;
    results := map[];
    var index := 0;
    NothingAnswered(records, bbls, sorted);
    while index < |sorted|
      invariant index <= |sorted| && AnsweredTo(records, bbls, sorted, index, results)
    {
      var end := ChunkEnd(|sorted|, index);
      SliceIncreasing(sorted, index, end);
      var found := LookupPlutoChunk(records, sorted[index..end]);
      OneMoreChunk(records, bbls, sorted, index, results, found);
      results := results + found;
      index := end;
    }
    AllAnswered(records, bbls, sorted, results);
  }

  lemma SliceIncreasing(sorted: seq<Bbl>, lo: nat, hi: nat)
    requires lo <= hi <= |sorted| && Increasing(sorted)
    ensures Increasing(sorted[lo..hi])
  {
  }

  lemma NothingAnswered(records: seq<PlutoRecord>, bbls: set<Bbl>, sorted: seq<Bbl>)
    ensures AnsweredTo(records, bbls, sorted, 0, map[])
  {
    assert sorted[..0] == [];
  }

  lemma AllAnswered(records: seq<PlutoRecord>, bbls: set<Bbl>, sorted: seq<Bbl>, results: map<Bbl, PlutoLookup>)
    requires AnsweredTo(records, bbls, sorted, |sorted|, results) && ToSet(sorted) == bbls
    ensures results.Keys == bbls && forall b :: b in bbls ==> results[b] == PlutoInBulk(records, bbls, b)
  {
    hide ChunkOf, PlutoInBulk;
    assert sorted[..|sorted|] == sorted;
  }

  lemma LaterChunk(sorted: seq<Bbl>, index: nat, b: Bbl)
    requires Increasing(sorted) && index < |sorted| && b in sorted[ChunkEnd(|sorted|, index)..]
    ensures b in sorted[index..] && ChunkOf(sorted, index, b) == ChunkOf(sorted, ChunkEnd(|sorted|, index), b)
  {
    var end := ChunkEnd(|sorted|, index);
    assert sorted[index..] == sorted[index..end] + sorted[end..];
    var i :| end <= i < |sorted| && sorted[i] == b;
    forall j | index <= j < end ensures sorted[j] != b {
      assert sorted[j] < sorted[i];
    }
  }

  // ---- When nothing can go wrong, and two ways in which it does ----

  lemma {:induction false} TwoEachBounds(records: seq<PlutoRecord>, chunk: seq<Bbl>)
    requires forall b :: b in chunk ==> |OfBbl(records, b)| <= PLUTO_LIMIT
    ensures |InOrder(records, chunk)| <= PLUTO_LIMIT * |chunk|
  {
    if chunk != [] {
      assert chunk[0] in chunk;
      TwoEachBounds(records, chunk[1..]);
    }
  }

  /** At most two rows for each BBL asked for are enough for agreement on all of them. */
  lemma TwoEachSuffice(records: seq<PlutoRecord>, bbls: set<Bbl>, b: Bbl)
    requires b in bbls && forall x :: x in bbls ==> |OfBbl(records, x)| <= PLUTO_LIMIT
    ensures BulkRows(records, bbls, b) == OfBbl(records, b) == OwnRows(records, b)
    ensures PlutoInBulk(records, bbls, b) == PlutoOne(records, b)
  {
    hide OfBbl, SortedSeq, Increasing, ChunkOf, InOrder, RowsBefore;
    var sorted := SortedSeq(bbls);
    assert sorted[0..] == sorted;
    var chunk := ChunkOf(sorted, 0, b);
    forall x | x in chunk ensures |OfBbl(records, x)| <= PLUTO_LIMIT { assert x in sorted; }
    TwoEachBounds(records, chunk);
    RowsFit(records, chunk, b);
    assert OfBbl(records, b)[..|OfBbl(records, b)|] == OfBbl(records, b);
  }

  /** Four rows of a smaller BBL hide the one complete row of a larger one: the bulk lookup misses it. */
  lemma FourRowsHideOne(many: seq<PlutoRecord>, s: PlutoRecord, a: Bbl, b: Bbl)
    requires |many| == 4 && a < b && s.bbl == Some(b) && Assessed(s).Complete? && forall r :: r in many ==> r.bbl == Some(a)
    ensures Verdict(Served(many + [s], [a, b], b)) == PlutoMissing
    ensures PlutoOne(many + [s], b) == PlutoFound(Assessed(s).parcel)
  {
    OfBblAppend(many, [s], a);
    OfBblAppend(many, [s], b);
    OfBblAll(many, a);
    OfBblNone(many, b);
    assert [s][1..] == [] && OfBbl([s], b) == [s] && OfBbl([s], a) == [];
    assert [a, b][1..] == [b] && RowsBefore(many + [s], [a, b], b) == 4;
    assert Served(many + [s], [a, b], b) == [];
    assert CountAll(NO_RECORDS, [s]) == CountAll(Count(NO_RECORDS, s), []);
  }

  /** A complete third row, served because another BBL has no rows, is found in bulk and not on its own. */
  lemma ThirdRowFound(x: PlutoRecord, y: PlutoRecord, g: PlutoRecord, a: Bbl, b: Bbl)
    requires a < b && x.bbl == y.bbl == g.bbl == Some(a)
    requires Assessed(x).Incomplete? && Assessed(y).Incomplete? && Assessed(g).Complete?
    ensures Verdict(Served([x, y, g], [a, b], a)) == PlutoFound(Assessed(g).parcel)
    ensures !PlutoOne([x, y, g], a).PlutoFound?
  {
    hide MergeReasons, Assessed;
    var rows := [x, y, g];
    OfBblAll(rows, a);
    assert Served(rows, [a, b], a) == rows;
    assert rows[1..] == [y, g] && [y, g][1..] == [g] && [g][1..] == [];
    assert rows[..2] == [x, y] && [x, y][1..] == [y] && [y][1..] == [];
    var t := Count(Count(NO_RECORDS, x), y);
    assert t.parcels == [];
    assert CountAll(NO_RECORDS, rows) == CountAll(t, [g]) == CountAll(Count(t, g), []);
    assert CountAll(NO_RECORDS, [x, y]) == CountAll(Count(NO_RECORDS, x), [y]) == CountAll(t, []);
    assert PageAt(OfBbl(rows, a), 0, PLUTO_LIMIT) == [x, y];
  }
}
