/**
 * The two read paths over live rows: their SQL filters and cursor predicates, the page they cut and
 * the cursor they hand out, shown to walk the ordered rows.
 */
module ViolationQueries {
  import opened Prelude
  import opened EcbTables
  import opened KeysetOrder
  import opened EcbProtocol
  import T = EcbProtocolTheorems

  datatype PropertyQuery = PropertyQuery(openOnly: bool, unpaidOnly: bool, cursor: Option<Key>, limit: nat)

  datatype PortfolioCursor = DateCursor(issueDate: Option<int>, sourceId: SourceId)
                           | UpdatedCursor(updatedAt: int, sourceId: SourceId)

  datatype PortfolioQuery = PortfolioQuery(unpaidOnly: bool, updatedSince: Option<int>,
                                           cursor: Option<PortfolioCursor>, limit: nat)

  datatype Page = Page(ids: seq<SourceId>, hasMore: bool)

  // ---- SQL predicates: a comparison with NULL is not true ----

  predicate DateBefore(date: Option<int>, bound: int) { date.Some? && date.value < bound }

  predicate DateEquals(date: Option<int>, bound: int) { date.Some? && date.value == bound }

  predicate DateCursorPredicate(cursorDate: Option<int>, cursorId: SourceId, id: SourceId, row: Violation) {
    if cursorDate.None? then row.issueDate.None? && IdLess(id, cursorId)
    else
      || DateBefore(row.issueDate, cursorDate.value)
      || (DateEquals(row.issueDate, cursorDate.value) && IdLess(id, cursorId))
      || row.issueDate.None?
  }

  predicate UpdatedCursorPredicate(at: int, cursorId: SourceId, id: SourceId, row: Violation) {
    row.updatedAt < at || (row.updatedAt == at && IdLess(id, cursorId))
  }

  predicate Unpaid(row: Violation) { row.balanceCents.Some? && row.balanceCents.value > 0 }

  predicate IsOpen(row: Violation) { row.status == Some("ACTIVE") }

  predicate PropertyFilter(q: PropertyQuery, bins: set<Bin>, row: LiveRow) {
    && row.current
    && row.violation.bin in bins
    && (q.openOnly ==> IsOpen(row.violation))
    && (q.unpaidOnly ==> Unpaid(row.violation))
  }

  predicate PropertyWhere(q: PropertyQuery, bins: set<Bin>, id: SourceId, row: LiveRow) {
    && PropertyFilter(q, bins, row)
    && (q.cursor.Some? ==> DateCursorPredicate(q.cursor.value.date, q.cursor.value.id, id, row.violation))
  }

  predicate PortfolioFilter(q: PortfolioQuery, bins: set<Bin>, row: LiveRow) {
    && row.current
    && row.violation.bin in bins
    && (q.unpaidOnly ==> Unpaid(row.violation))
    && (q.updatedSince.Some? ==> q.updatedSince.value < row.violation.updatedAt)
  }

  /** Each ordering has its own cursor; a cursor of the other kind adds no predicate. */
  predicate PortfolioWhere(q: PortfolioQuery, bins: set<Bin>, id: SourceId, row: LiveRow) {
    && PortfolioFilter(q, bins, row)
    && match q.cursor
       case None => true
       case Some(DateCursor(date, cursorId)) =>
         q.updatedSince.None? ==> DateCursorPredicate(date, cursorId, id, row.violation)
       case Some(UpdatedCursor(at, cursorId)) =>
         q.updatedSince.Some? ==> UpdatedCursorPredicate(at, cursorId, id, row.violation)
  }

  // ---- ORDER BY and LIMIT ----

  /** What a row is ordered by: its update instant in the updated-since order, else its issue date. */
  function KeyFor(byUpdate: bool, id: SourceId, row: Violation): Key {
    Key(if byUpdate then Some(row.updatedAt) else row.issueDate, id)
  }

  function KeySet(live: Live, ids: set<SourceId>, byUpdate: bool): (keys: set<Key>)
    requires ids <= live.Keys
    ensures forall k :: k in keys <==> k.id in ids && k == KeyFor(byUpdate, k.id, live[k.id].violation)
  {
    set id | id in ids :: KeyFor(byUpdate, id, live[id].violation)
  }

  function PropertySelected(live: Live, bins: set<Bin>, q: PropertyQuery): set<SourceId> {
    set id | id in live && PropertyWhere(q, bins, id, live[id])
  }

  function PropertyMatching(live: Live, bins: set<Bin>, q: PropertyQuery): set<SourceId> {
    set id | id in live && PropertyFilter(q, bins, live[id])
  }

  function PortfolioSelected(live: Live, bins: set<Bin>, q: PortfolioQuery): set<SourceId> {
    set id | id in live && PortfolioWhere(q, bins, id, live[id])
  }

  function PortfolioMatching(live: Live, bins: set<Bin>, q: PortfolioQuery): set<SourceId> {
    set id | id in live && PortfolioFilter(q, bins, live[id])
  }

  function Ids(keys: seq<Key>): (ids: seq<SourceId>)
    ensures |ids| == |keys|
    ensures forall i :: 0 <= i < |keys| ==> ids[i] == keys[i].id
  {
    seq(|keys|, i requires 0 <= i < |keys| => keys[i].id)
  }

  /** Rows selected with LIMIT limit + 1, in order; the page drops the extra one. */
  ghost function CutPage(selected: set<Key>, limit: nat): Page {
    var all := Ordered(selected);
    var rows := if |all| <= limit + 1 then all else all[..limit + 1];
    Page(Ids(if |rows| <= limit then rows else rows[..limit]), limit < |rows|)
  }

  ghost function FindPropertyPage(live: Live, bins: set<Bin>, q: PropertyQuery): Page {
    CutPage(KeySet(live, PropertySelected(live, bins, q), false), q.limit)
  }

  ghost function FindPortfolioPage(live: Live, bins: set<Bin>, q: PortfolioQuery): Page {
    CutPage(KeySet(live, PortfolioSelected(live, bins, q), q.updatedSince.Some?), q.limit)
  }

  // ---- Next cursors ----

  function NextPropertyCursor(live: Live, page: Page): Option<Key>
    requires forall i :: 0 <= i < |page.ids| ==> page.ids[i] in live
  {
    if page.hasMore && page.ids != [] then
      var last := page.ids[|page.ids| - 1];
      Some(Key(live[last].violation.issueDate, last))
    else None
  }

  function NextPortfolioCursor(live: Live, q: PortfolioQuery, page: Page): Option<PortfolioCursor>
    requires forall i :: 0 <= i < |page.ids| ==> page.ids[i] in live
  {
    if page.hasMore && page.ids != [] then
      var last := page.ids[|page.ids| - 1];
      Some(if q.updatedSince.None? then DateCursor(live[last].violation.issueDate, last)
           else UpdatedCursor(live[last].violation.updatedAt, last))
    else None
  }

  // ---- Cursor predicates against the orders ----

  /** The default predicate admits exactly the rows behind the cursor, NULL dates last. */
  lemma DatePredicateIsOrder(cursor: Key, id: SourceId, row: Violation)
    ensures DateCursorPredicate(cursor.date, cursor.id, id, row) <==> Before(cursor, KeyFor(false, id, row))
  {
  }

  lemma UpdatedPredicateIsOrder(at: int, cursorId: SourceId, id: SourceId, row: Violation)
    ensures UpdatedCursorPredicate(at, cursorId, id, row) <==> Before(Key(Some(at), cursorId), KeyFor(true, id, row))
  {
  }

  // ---- Pages are key pages ----

  ghost function PropertyKeys(live: Live, bins: set<Bin>, q: PropertyQuery): set<Key> {
    KeySet(live, PropertyMatching(live, bins, q), false)
  }

  ghost function PortfolioKeys(live: Live, bins: set<Bin>, q: PortfolioQuery): set<Key> {
    KeySet(live, PortfolioMatching(live, bins, q), q.updatedSince.Some?)
  }

  lemma CutIsPage(keys: set<Key>, cursor: Option<Key>, limit: nat)
    ensures CutPage(Past(keys, cursor), limit) == Page(Ids(PageOf(keys, cursor, limit)), HasMore(keys, cursor, limit))
  {
    hide Ordered, Past;
    var all := Ordered(Past(keys, cursor));
    if limit < |all| {
      var rows := if |all| <= limit + 1 then all else all[..limit + 1];
      assert rows[..limit] == all[..limit];
    }
  }

  lemma PropertyWhereIsPast(live: Live, bins: set<Bin>, q: PropertyQuery)
    ensures KeySet(live, PropertySelected(live, bins, q), false)
            == Past(PropertyKeys(live, bins, q), q.cursor)
  {
    hide Before, DateCursorPredicate, PropertyFilter, KeyFor;
    if q.cursor.Some? {
      forall id | id in live
        ensures DateCursorPredicate(q.cursor.value.date, q.cursor.value.id, id, live[id].violation)
                <==> Before(q.cursor.value, KeyFor(false, id, live[id].violation))
      {
        DatePredicateIsOrder(q.cursor.value, id, live[id].violation);
      }
    }
  }

  /** The property page is the page of the ordered filtered rows past the cursor. */
  lemma PropertyPageIsKeyPage(live: Live, bins: set<Bin>, q: PropertyQuery)
    ensures var keys := PropertyKeys(live, bins, q);
            FindPropertyPage(live, bins, q)
            == Page(Ids(PageOf(keys, q.cursor, q.limit)), HasMore(keys, q.cursor, q.limit))
  {
    hide PropertyKeys, Past, CutPage, PageOf, HasMore, PropertyWhere;
    PropertyWhereIsPast(live, bins, q);
    CutIsPage(PropertyKeys(live, bins, q), q.cursor, q.limit);
  }

  /** The key a portfolio cursor stands for; of the wrong kind it stands for none. */
  function CursorKey(q: PortfolioQuery): Option<Key> {
    match q.cursor
    case None => None
    case Some(DateCursor(date, id)) => if q.updatedSince.None? then Some(Key(date, id)) else None
    case Some(UpdatedCursor(at, id)) => if q.updatedSince.Some? then Some(Key(Some(at), id)) else None
  }

  lemma PortfolioWhereIsPast(live: Live, bins: set<Bin>, q: PortfolioQuery)
    ensures KeySet(live, PortfolioSelected(live, bins, q), q.updatedSince.Some?)
            == Past(PortfolioKeys(live, bins, q), CursorKey(q))
  {
    hide Before, DateCursorPredicate, UpdatedCursorPredicate, PortfolioFilter, KeyFor;
    forall id | id in live
      ensures PortfolioWhere(q, bins, id, live[id])
              <==> PortfolioFilter(q, bins, live[id])
                   && (CursorKey(q).Some? ==>
                         Before(CursorKey(q).value, KeyFor(q.updatedSince.Some?, id, live[id].violation)))
    {
      if q.cursor.Some? {
        match q.cursor.value
        case DateCursor(date, cursorId) => DatePredicateIsOrder(Key(date, cursorId), id, live[id].violation);
        case UpdatedCursor(at, cursorId) => UpdatedPredicateIsOrder(at, cursorId, id, live[id].violation);
      }
    }
    hide CursorKey, PortfolioWhere;
  }

  /** The portfolio page, in either ordering, is the page of its ordered filtered rows past the cursor. */
  lemma PortfolioPageIsKeyPage(live: Live, bins: set<Bin>, q: PortfolioQuery)
    ensures var keys := PortfolioKeys(live, bins, q);
            FindPortfolioPage(live, bins, q)
            == Page(Ids(PageOf(keys, CursorKey(q), q.limit)), HasMore(keys, CursorKey(q), q.limit))
  {
    hide PortfolioKeys, Past, CutPage, PageOf, HasMore, PortfolioWhere, CursorKey;
    PortfolioWhereIsPast(live, bins, q);
    CutIsPage(PortfolioKeys(live, bins, q), CursorKey(q), q.limit);
  }

  // ---- What the services hand out as next cursor ----

  lemma PageKeysKnown(keys: set<Key>, cursor: Option<Key>, limit: nat)
    ensures forall i :: 0 <= i < |PageOf(keys, cursor, limit)| ==> PageOf(keys, cursor, limit)[i] in keys
  {
    hide Ordered, Before;
    forall i | 0 <= i < |PageOf(keys, cursor, limit)| ensures PageOf(keys, cursor, limit)[i] in keys {
      assert PageOf(keys, cursor, limit)[i] in Ordered(Past(keys, cursor));
    }
  }

  /** The property cursor is the key of the page's last row, exactly when there are more rows. */
  lemma PropertyCursorIsLastKey(live: Live, bins: set<Bin>, q: PropertyQuery)
    requires 0 < q.limit
    ensures var page, keys := FindPropertyPage(live, bins, q), PageOf(PropertyKeys(live, bins, q), q.cursor, q.limit);
            && (forall i :: 0 <= i < |page.ids| ==> page.ids[i] in live)
            && page.hasMore == HasMore(PropertyKeys(live, bins, q), q.cursor, q.limit)
            && (page.hasMore ==> keys != [])
            && NextPropertyCursor(live, page) == if page.hasMore then Some(keys[|keys| - 1]) else None
  {
    hide PageOf, HasMore, FindPropertyPage;
    var keys := PropertyKeys(live, bins, q);
    PropertyPageIsKeyPage(live, bins, q);
    PageKeysKnown(keys, q.cursor, q.limit);
    FullPageNonEmpty(keys, q.cursor, q.limit);
  }

  lemma FullPageNonEmpty(keys: set<Key>, cursor: Option<Key>, limit: nat)
    requires 0 < limit
    ensures HasMore(keys, cursor, limit) ==> PageOf(keys, cursor, limit) != []
  {
  }

  lemma PortfolioCursorIsLastKey(live: Live, bins: set<Bin>, q: PortfolioQuery)
    requires 0 < q.limit
    ensures var page, keys := FindPortfolioPage(live, bins, q), PageOf(PortfolioKeys(live, bins, q), CursorKey(q), q.limit);
            && (forall i :: 0 <= i < |page.ids| ==> page.ids[i] in live)
            && page.hasMore == HasMore(PortfolioKeys(live, bins, q), CursorKey(q), q.limit)
            && (page.hasMore ==> keys != [])
            && var next := NextPortfolioCursor(live, q, page);
               CursorKey(q.(cursor := next)) == if page.hasMore then Some(keys[|keys| - 1]) else None
  {
    hide PageOf, HasMore, FindPortfolioPage;
    var keys := PortfolioKeys(live, bins, q);
    PortfolioPageIsKeyPage(live, bins, q);
    PageKeysKnown(keys, CursorKey(q), q.limit);
    FullPageNonEmpty(keys, CursorKey(q), q.limit);
  }

  // ---- Walks ----

  datatype Moment = Moment(live: Live, bins: set<Bin>)

  /** A client follows the property cursors: page `i` is answered at moment `i`. */
  ghost predicate PropertyWalk(q: PropertyQuery, moments: seq<Moment>, cursors: seq<Option<Key>>) {
    && 0 < |moments| == |cursors|
    && cursors[0] == None
    && (forall i :: 0 <= i < |moments| - 1 ==> FollowsProperty(q, moments[i], cursors[i], cursors[i + 1]))
    && !PropertyAnswer(q, moments[|moments| - 1], cursors[|moments| - 1]).hasMore
  }

  ghost function PropertyAnswer(q: PropertyQuery, m: Moment, cursor: Option<Key>): Page {
    FindPropertyPage(m.live, m.bins, q.(cursor := cursor))
  }

  ghost predicate FollowsProperty(q: PropertyQuery, m: Moment, cursor: Option<Key>, next: Option<Key>) {
    var page := PropertyAnswer(q, m, cursor);
    && page.hasMore
    && (forall i :: 0 <= i < |page.ids| ==> page.ids[i] in m.live)
    && next == NextPropertyCursor(m.live, page)
  }

  ghost predicate PortfolioWalk(q: PortfolioQuery, moments: seq<Moment>, cursors: seq<Option<PortfolioCursor>>) {
    && 0 < |moments| == |cursors|
    && cursors[0] == None
    && (forall i :: 0 <= i < |moments| - 1 ==> FollowsPortfolio(q, moments[i], cursors[i], cursors[i + 1]))
    && !PortfolioAnswer(q, moments[|moments| - 1], cursors[|moments| - 1]).hasMore
  }

  ghost function PortfolioAnswer(q: PortfolioQuery, m: Moment, cursor: Option<PortfolioCursor>): Page {
    FindPortfolioPage(m.live, m.bins, q.(cursor := cursor))
  }

  ghost predicate FollowsPortfolio(q: PortfolioQuery, m: Moment, cursor: Option<PortfolioCursor>,
                                   next: Option<PortfolioCursor>) {
    var page := PortfolioAnswer(q, m, cursor);
    && page.hasMore
    && (forall i :: 0 <= i < |page.ids| ==> page.ids[i] in m.live)
    && next == NextPortfolioCursor(m.live, q, page)
  }

  ghost function PropertyStates(q: PropertyQuery, moments: seq<Moment>): (r: seq<set<Key>>)
    ensures |r| == |moments|
    ensures forall i :: 0 <= i < |r| ==> r[i] == PropertyKeys(moments[i].live, moments[i].bins, q)
  {
    seq(|moments|, i requires 0 <= i < |moments| => PropertyKeys(moments[i].live, moments[i].bins, q))
  }

  ghost function PortfolioStates(q: PortfolioQuery, moments: seq<Moment>): (r: seq<set<Key>>)
    ensures |r| == |moments|
    ensures forall i :: 0 <= i < |r| ==> r[i] == PortfolioKeys(moments[i].live, moments[i].bins, q)
  {
    seq(|moments|, i requires 0 <= i < |moments| => PortfolioKeys(moments[i].live, moments[i].bins, q))
  }

  ghost function CursorKeys(q: PortfolioQuery, cursors: seq<Option<PortfolioCursor>>): (r: seq<Option<Key>>)
    ensures |r| == |cursors|
    ensures forall i :: 0 <= i < |r| ==> r[i] == CursorKey(q.(cursor := cursors[i]))
  {
    seq(|cursors|, i requires 0 <= i < |cursors| => CursorKey(q.(cursor := cursors[i])))
  }

  /** Filters do not look at the cursor. */
  lemma CursorFree(q: PropertyQuery, live: Live, bins: set<Bin>, cursor: Option<Key>)
    ensures PropertyKeys(live, bins, q.(cursor := cursor)) == PropertyKeys(live, bins, q)
  {
  }

  lemma PortfolioCursorFree(q: PortfolioQuery, live: Live, bins: set<Bin>, cursor: Option<PortfolioCursor>)
    ensures PortfolioKeys(live, bins, q.(cursor := cursor)) == PortfolioKeys(live, bins, q)
  {
  }

  lemma PropertyAnswerIsPage(q: PropertyQuery, m: Moment, cursor: Option<Key>)
    requires 0 < q.limit
    ensures var keys, answer := PropertyKeys(m.live, m.bins, q), PropertyAnswer(q, m, cursor);
            && answer == Page(Ids(PageOf(keys, cursor, q.limit)), HasMore(keys, cursor, q.limit))
            && forall next :: FollowsProperty(q, m, cursor, next) ==>
                 && HasMore(keys, cursor, q.limit)
                 && var page := PageOf(keys, cursor, q.limit);
                    page != [] && next == Some(page[|page| - 1])
  {
    hide PageOf, HasMore, PropertyKeys, FindPropertyPage;
    CursorFree(q, m.live, m.bins, cursor);
    PropertyPageIsKeyPage(m.live, m.bins, q.(cursor := cursor));
    PropertyCursorIsLastKey(m.live, m.bins, q.(cursor := cursor));
  }

  lemma PropertyWalkIsWalk(q: PropertyQuery, moments: seq<Moment>, cursors: seq<Option<Key>>)
    requires 0 < q.limit && PropertyWalk(q, moments, cursors)
    ensures WalkOver(PropertyStates(q, moments), cursors, q.limit)
  {
    hide PageOf, HasMore, PropertyKeys, FollowsProperty, PropertyAnswer;
    var states := PropertyStates(q, moments);
    forall i | 0 <= i < |states| - 1
      ensures HasMore(states[i], cursors[i], q.limit)
      ensures var page := PageOf(states[i], cursors[i], q.limit); page != [] && cursors[i + 1] == Some(page[|page| - 1])
    {
      PropertyAnswerIsPage(q, moments[i], cursors[i]);
      assert FollowsProperty(q, moments[i], cursors[i], cursors[i + 1]);
    }
    PropertyAnswerIsPage(q, moments[|moments| - 1], cursors[|moments| - 1]);
    assert states != [] && |cursors| == |states| && cursors[0] == None;
    assert !HasMore(states[|states| - 1], cursors[|cursors| - 1], q.limit);
    assert WalkOver(states, cursors, q.limit);
  }

  lemma PortfolioAnswerIsPage(q: PortfolioQuery, m: Moment, cursor: Option<PortfolioCursor>)
    requires 0 < q.limit
    ensures var keys, answer := PortfolioKeys(m.live, m.bins, q), PortfolioAnswer(q, m, cursor);
            var at := CursorKey(q.(cursor := cursor));
            && answer == Page(Ids(PageOf(keys, at, q.limit)), HasMore(keys, at, q.limit))
            && forall next :: FollowsPortfolio(q, m, cursor, next) ==>
                 && HasMore(keys, at, q.limit)
                 && var page := PageOf(keys, at, q.limit);
                    page != [] && CursorKey(q.(cursor := next)) == Some(page[|page| - 1])
  {
    hide PageOf, HasMore, PortfolioKeys, FindPortfolioPage, CursorKey, NextPortfolioCursor;
    PortfolioCursorFree(q, m.live, m.bins, cursor);
    PortfolioPageIsKeyPage(m.live, m.bins, q.(cursor := cursor));
    PortfolioCursorIsLastKey(m.live, m.bins, q.(cursor := cursor));
    forall next | FollowsPortfolio(q, m, cursor, next)
      ensures NextPortfolioCursor(m.live, q.(cursor := cursor), PortfolioAnswer(q, m, cursor)) == next
    {
      SameNext(q, cursor, m.live, PortfolioAnswer(q, m, cursor));
    }
  }

  lemma PortfolioWalkIsWalk(q: PortfolioQuery, moments: seq<Moment>, cursors: seq<Option<PortfolioCursor>>)
    requires 0 < q.limit && PortfolioWalk(q, moments, cursors)
    ensures WalkOver(PortfolioStates(q, moments), CursorKeys(q, cursors), q.limit)
  {
    hide PageOf, HasMore, PortfolioKeys, FollowsPortfolio, PortfolioAnswer, CursorKey;
    NoCursor(q);
    var states, keys := PortfolioStates(q, moments), CursorKeys(q, cursors);
    forall i | 0 <= i < |states| - 1
      ensures HasMore(states[i], keys[i], q.limit)
      ensures var page := PageOf(states[i], keys[i], q.limit); page != [] && keys[i + 1] == Some(page[|page| - 1])
    {
      PortfolioAnswerIsPage(q, moments[i], cursors[i]);
      assert FollowsPortfolio(q, moments[i], cursors[i], cursors[i + 1]);
    }
    PortfolioAnswerIsPage(q, moments[|moments| - 1], cursors[|moments| - 1]);
    assert states != [] && |keys| == |states| && keys[0] == None;
    assert !HasMore(states[|states| - 1], keys[|keys| - 1], q.limit);
    assert WalkOver(states, keys, q.limit);
  }

  lemma NoCursor(q: PortfolioQuery)
    ensures CursorKey(q.(cursor := None)) == None
  {
  }

  lemma SameNext(q: PortfolioQuery, cursor: Option<PortfolioCursor>, live: Live, page: Page)
    requires forall i :: 0 <= i < |page.ids| ==> page.ids[i] in live
    ensures NextPortfolioCursor(live, q.(cursor := cursor), page) == NextPortfolioCursor(live, q, page)
  {
  }

  lemma IdOnPage(keys: seq<Key>, all: set<Key>, k: Key)
    requires forall i :: 0 <= i < |keys| ==> keys[i] in all
    requires forall o :: o in all && o.id == k.id ==> o == k
    ensures k.id in Ids(keys) <==> k in keys
  {
    if k.id in Ids(keys) {
      var i :| 0 <= i < |keys| && Ids(keys)[i] == k.id;
      assert keys[i] in all;
    }
    if k in keys {
      var i :| 0 <= i < |keys| && keys[i] == k;
      assert Ids(keys)[i] == k.id;
    }
  }

  /** Where a source id stands on an answer. */
  ghost predicate Shows(answer: Page, id: SourceId) { id in answer.ids }

  lemma PageIdUnique(keys: set<Key>, cursor: Option<Key>, limit: nat, live: Live, ids: set<SourceId>, byUpdate: bool)
    requires ids <= live.Keys && keys == KeySet(live, ids, byUpdate)
    ensures var shown := Ids(PageOf(keys, cursor, limit));
            forall i, j :: 0 <= i < j < |shown| ==> shown[i] != shown[j]
  {
    hide Ordered, Before;
    var page := PageOf(keys, cursor, limit);
    PageKeysKnown(keys, cursor, limit);
    forall i, j | 0 <= i < j < |page| ensures page[i].id != page[j].id {
      assert Before(page[i], page[j]);
      BeforeTotal(page[i], page[j]);
      assert page[i] == KeyFor(byUpdate, page[i].id, live[page[i].id].violation);
      assert page[j] == KeyFor(byUpdate, page[j].id, live[page[j].id].violation);
    }
  }

  /** A violation that stays in the property's filter with its issue date unchanged. */
  ghost predicate StaysOnProperty(q: PropertyQuery, moments: seq<Moment>, id: SourceId, date: Option<int>) {
    forall m :: m in moments ==>
      id in m.live && PropertyFilter(q, m.bins, m.live[id]) && m.live[id].violation.issueDate == date
  }

  /**
   * Following the property cursors to the end, while publications and BIN changes happen between the
   * pages, shows every violation that stays in the filter with its issue date unchanged exactly once.
   */
  lemma PropertyWalkShowsOnce(q: PropertyQuery, moments: seq<Moment>, cursors: seq<Option<Key>>,
                              id: SourceId, date: Option<int>)
    requires 0 < q.limit && PropertyWalk(q, moments, cursors) && StaysOnProperty(q, moments, id, date)
    ensures exists i :: 0 <= i < |moments| && Shows(PropertyAnswer(q, moments[i], cursors[i]), id)
    ensures forall i, j :: 0 <= i < j < |moments| && Shows(PropertyAnswer(q, moments[i], cursors[i]), id)
                           ==> !Shows(PropertyAnswer(q, moments[j], cursors[j]), id)
    ensures forall i :: 0 <= i < |moments| ==> Distinct(PropertyAnswer(q, moments[i], cursors[i]).ids)
  {
    hide PageOf, PropertyFilter, PropertyAnswer, PropertyWalk, WalkOver;
    var states, k := PropertyStates(q, moments), Key(date, id);
    PropertyWalkIsWalk(q, moments, cursors);
    assert |cursors| == |moments| by { WalkLengths(q, moments, cursors); }
    forall s | s in states ensures k in s {
      var i :| 0 <= i < |states| && states[i] == s;
      assert moments[i] in moments;
    }
    StableRowOnce(states, cursors, q.limit, k);
    forall i | 0 <= i < |moments|
      ensures Shows(PropertyAnswer(q, moments[i], cursors[i]), id) <==> k in PageOf(states[i], cursors[i], q.limit)
      ensures Distinct(PropertyAnswer(q, moments[i], cursors[i]).ids)
    {
      var m := moments[i];
      assert m in moments;
      PropertyAnswerIsPage(q, m, cursors[i]);
      PageKeysKnown(states[i], cursors[i], q.limit);
      IdOnPage(PageOf(states[i], cursors[i], q.limit), states[i], k);
      PageIdUnique(states[i], cursors[i], q.limit, m.live, PropertyMatching(m.live, m.bins, q), false);
    }
    var found :| 0 <= found < |states| && k in PageOf(states[found], cursors[found], q.limit);
    assert Shows(PropertyAnswer(q, moments[found], cursors[found]), id);
  }

  lemma WalkLengths(q: PropertyQuery, moments: seq<Moment>, cursors: seq<Option<Key>>)
    requires PropertyWalk(q, moments, cursors)
    ensures 0 < |moments| == |cursors|
  {
  }

  /** A violation that stays in the portfolio filter with the value it is ordered by unchanged. */
  ghost predicate StaysInPortfolio(q: PortfolioQuery, moments: seq<Moment>, id: SourceId, k: Key) {
    forall m :: m in moments ==>
      && id in m.live && PortfolioFilter(q, m.bins, m.live[id])
      && KeyFor(q.updatedSince.Some?, id, m.live[id].violation) == k
  }

  /** The same over the portfolio, in either ordering. */
  lemma PortfolioWalkShowsOnce(q: PortfolioQuery, moments: seq<Moment>, cursors: seq<Option<PortfolioCursor>>,
                               id: SourceId, k: Key)
    requires 0 < q.limit && PortfolioWalk(q, moments, cursors) && StaysInPortfolio(q, moments, id, k)
    ensures exists i :: 0 <= i < |moments| && Shows(PortfolioAnswer(q, moments[i], cursors[i]), id)
    ensures forall i, j :: 0 <= i < j < |moments| && Shows(PortfolioAnswer(q, moments[i], cursors[i]), id)
                           ==> !Shows(PortfolioAnswer(q, moments[j], cursors[j]), id)
    ensures forall i :: 0 <= i < |moments| ==> Distinct(PortfolioAnswer(q, moments[i], cursors[i]).ids)
  {
    hide PageOf, PortfolioFilter, PortfolioAnswer, PortfolioWalk, WalkOver, CursorKey;
    var states, keys := PortfolioStates(q, moments), CursorKeys(q, cursors);
    PortfolioWalkIsWalk(q, moments, cursors);
    assert 0 < |cursors| == |moments| by { PortfolioWalkLengths(q, moments, cursors); }
    assert moments[0] in moments;
    forall s | s in states ensures k in s {
      var i :| 0 <= i < |states| && states[i] == s;
      assert moments[i] in moments;
    }
    StableRowOnce(states, keys, q.limit, k);
    forall i | 0 <= i < |moments|
      ensures Shows(PortfolioAnswer(q, moments[i], cursors[i]), id) <==> k in PageOf(states[i], keys[i], q.limit)
      ensures Distinct(PortfolioAnswer(q, moments[i], cursors[i]).ids)
    {
      var m := moments[i];
      assert m in moments;
      PortfolioAnswerIsPage(q, m, cursors[i]);
      PageKeysKnown(states[i], keys[i], q.limit);
      IdOnPage(PageOf(states[i], keys[i], q.limit), states[i], k);
      PageIdUnique(states[i], keys[i], q.limit, m.live, PortfolioMatching(m.live, m.bins, q), q.updatedSince.Some?);
    }
    var found :| 0 <= found < |states| && k in PageOf(states[found], keys[found], q.limit);
    assert Shows(PortfolioAnswer(q, moments[found], cursors[found]), id);
  }

  lemma PortfolioWalkLengths(q: PortfolioQuery, moments: seq<Moment>, cursors: seq<Option<PortfolioCursor>>)
    requires PortfolioWalk(q, moments, cursors)
    ensures 0 < |moments| == |cursors|
  {
  }

  // ---- Against the source ----

  /** The keys of the normalized source rows a client asks a property for. */
  ghost function SourceKeys(source: Source, bins: set<Bin>, q: PropertyQuery): set<Key> {
    var rows := NormalizedOn(source, bins);
    set id | id in rows && (q.openOnly ==> IsOpen(rows[id])) && (q.unpaidOnly ==> Unpaid(rows[id]))
           :: KeyFor(false, id, rows[id])
  }

  lemma ServedKeys(live: Live, source: Source, bins: set<Bin>, q: PropertyQuery)
    requires CurrentOn(live, bins) == NormalizedOn(source, bins)
    ensures PropertyKeys(live, bins, q) == SourceKeys(source, bins, q)
  {
    hide IsOpen, Unpaid;
    var rows := NormalizedOn(source, bins);
    forall id | id in live && live[id].current && live[id].violation.bin in bins
      ensures id in rows && rows[id] == live[id].violation
    {
      assert id in CurrentOn(live, bins);
    }
    forall id | id in rows ensures id in live && live[id].current && live[id].violation == rows[id] && rows[id].bin in bins {
      assert id in CurrentOn(live, bins);
    }
    forall k | k in PropertyKeys(live, bins, q) ensures k in SourceKeys(source, bins, q) {
      assert k.id in rows && k == KeyFor(false, k.id, rows[k.id]);
    }
    forall k | k in SourceKeys(source, bins, q) ensures k in PropertyKeys(live, bins, q) {
      var id :| id in rows && (q.openOnly ==> IsOpen(rows[id])) && (q.unpaidOnly ==> Unpaid(rows[id]))
                && k == KeyFor(false, id, rows[id]);
    }
  }

  /**
   * From the source to the client: in every reachable state, walking a CHECKED property returns, in
   * order and each once, exactly the source rows of its BINs as they stood at its watermark.
   */
  lemma CheckedPropertyWalk(c: Config, w: World, p: PropertyId, q: PropertyQuery)
    requires c.Ok() && Reachable(c, w) && 0 < q.limit
    requires p in w.db.coverage && w.db.coverage[p].status.Checked?
    ensures var row := w.db.coverage[p];
            && p in w.db.properties && row.watermark.Some? && row.watermark.value in w.archive
            && var bins := w.db.properties[p].bins;
               Flatten(Walk(PropertyKeys(w.db.live, bins, q), None, q.limit))
               == Ordered(SourceKeys(w.archive[row.watermark.value], bins, q))
  {
    hide Reachable, PropertyKeys, SourceKeys, Ordered, Walk;
    T.CheckedMeansExact(c, w, p);
    var source, bins := w.archive[w.db.coverage[p].watermark.value], w.db.properties[p].bins;
    ServedKeys(w.db.live, source, bins, q);
    var keys := PropertyKeys(w.db.live, bins, q);
    WalkIsComplete(keys, None, q.limit);
    assert Past(keys, None) == keys;
  }
}
