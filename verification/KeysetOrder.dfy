/** The two orders rows are served in, and pages cut from an ordered set of keys. */
module KeysetOrder {
  import opened Prelude

  /** Text order of source ids, character by character. */
  predicate IdLess(a: string, b: string) {
    if b == "" then false
    else if a == "" then true
    else a[0] < b[0] || (a[0] == b[0] && IdLess(a[1..], b[1..]))
  }

  lemma {:induction false} IdLessTotal(a: string, b: string)
    ensures IdLess(a, b) || IdLess(b, a) || a == b
    ensures !(IdLess(a, b) && IdLess(b, a))
  {
    if a != "" && b != "" && a[0] == b[0] {
      IdLessTotal(a[1..], b[1..]);
      assert a == [a[0]] + a[1..] && b == [b[0]] + b[1..];
    }
  }

  lemma {:induction false} IdLessTransitive(a: string, b: string, c: string)
    requires IdLess(a, b) && IdLess(b, c)
    ensures IdLess(a, c)
  {
    if a != "" && a[0] == b[0] == c[0] {
      IdLessTransitive(a[1..], b[1..], c[1..]);
    }
  }

  /** A sort key: a row without a date sorts behind every row with one. */
  datatype Key = Key(date: Option<int>, id: string)

  /** DESC NULLS LAST on the date, then DESC on the id. */
  predicate Before(a: Key, b: Key) {
    match (a.date, b.date)
    case (Some(_), None) => true
    case (None, Some(_)) => false
    case (None, None) => IdLess(b.id, a.id)
    case (Some(x), Some(y)) => y < x || (x == y && IdLess(b.id, a.id))
  }

  lemma BeforeTotal(a: Key, b: Key)
    ensures Before(a, b) || Before(b, a) || a == b
    ensures !(Before(a, b) && Before(b, a))
    ensures !Before(a, a)
  {
    IdLessTotal(a.id, b.id);
    IdLessTotal(a.id, a.id);
  }

  lemma BeforeTransitive(a: Key, b: Key, c: Key)
    requires Before(a, b) && Before(b, c)
    ensures Before(a, c)
  {
    if IdLess(b.id, a.id) && IdLess(c.id, b.id) { IdLessTransitive(c.id, b.id, a.id); }
  }

  ghost predicate Ascending(keys: seq<Key>) {
    forall i, j :: 0 <= i < j < |keys| ==> Before(keys[i], keys[j])
  }

  ghost predicate IsFirst(keys: set<Key>, k: Key) {
    k in keys && forall o :: o in keys && o != k ==> Before(k, o)
  }

  lemma {:induction false} FirstExists(keys: set<Key>)
    requires keys != {}
    ensures exists k :: IsFirst(keys, k)
  {
    var k :| k in keys;
    if keys == {k} {
      assert IsFirst(keys, k);
    } else {
      var rest := keys - {k};
      FirstExists(rest);
      var f :| IsFirst(rest, f);
      BeforeTotal(k, f);
      if Before(f, k) {
        assert IsFirst(keys, f);
      } else {
        forall o | o in keys && o != k ensures Before(k, o) {
          if o != f { BeforeTransitive(k, f, o); }
        }
        assert IsFirst(keys, k);
      }
    }
  }

  ghost function First(keys: set<Key>): (k: Key)
    requires keys != {}
    ensures IsFirst(keys, k)
  {
    FirstExists(keys);
    var k :| IsFirst(keys, k);
    k
  }

  /** All the keys in order. */
  ghost function Ordered(keys: set<Key>): (s: seq<Key>)
    ensures Ascending(s)
    ensures forall k :: k in s <==> k in keys
    ensures |s| == |keys|
  {
    if keys == {} then []
    else
      var f := First(keys);
      var rest := Ordered(keys - {f});
      assert forall k :: k in rest ==> Before(f, k);
      [f] + rest
  }

  lemma AscendingTail(s: seq<Key>)
    requires s != [] && Ascending(s)
    ensures Ascending(s[1..])
    ensures s[0] !in s[1..]
    ensures forall k :: k in s[1..] ==> Before(s[0], k)
  {
    forall k | k in s[1..] ensures Before(s[0], k) && k != s[0] {
      var i :| 0 <= i < |s[1..]| && s[1..][i] == k;
      assert s[i + 1] == k && Before(s[0], s[i + 1]);
      BeforeTotal(s[0], k);
    }
  }

  lemma EmptyAlike(a: seq<Key>, b: seq<Key>)
    requires forall k :: k in a <==> k in b
    ensures a == [] <==> b == []
  {
    if a != [] { assert a[0] in a; }
    if b != [] { assert b[0] in b; }
  }

  lemma FirstLeads(s: seq<Key>, k: Key)
    requires Ascending(s) && k in s
    ensures k == s[0] || Before(s[0], k)
  {
    var i :| 0 <= i < |s| && s[i] == k;
  }

  /** A set has one ascending listing. */
  lemma {:induction false} AscendingUnique(a: seq<Key>, b: seq<Key>)
    requires Ascending(a) && Ascending(b) && (forall k :: k in a <==> k in b)
    ensures a == b
  {
    if a == [] {
      EmptyAlike(a, b);
    } else {
      assert a[0] in b;
      AscendingTail(a);
      AscendingTail(b);
      assert b[0] in b;
      FirstLeads(a, b[0]);
      FirstLeads(b, a[0]);
      BeforeTotal(a[0], b[0]);
      forall k ensures k in a[1..] <==> k in b[1..] {
        assert k in a <==> k == a[0] || k in a[1..];
        assert k in b <==> k == b[0] || k in b[1..];
      }
      AscendingUnique(a[1..], b[1..]);
    }
  }

  // ---- Pages ----

  /** Keys past a cursor; no cursor stands before everything. */
  ghost function Past(keys: set<Key>, cursor: Option<Key>): set<Key> {
    set k | k in keys && (cursor.Some? ==> Before(cursor.value, k))
  }

  /** LIMIT limit + 1, of which the last row only tells whether there are more. */
  ghost function PageOf(keys: set<Key>, cursor: Option<Key>, limit: nat): (page: seq<Key>) {
    var rows := Ordered(Past(keys, cursor));
    if |rows| <= limit then rows else rows[..limit]
  }

  ghost predicate HasMore(keys: set<Key>, cursor: Option<Key>, limit: nat) {
    limit < |Past(keys, cursor)|
  }

  /** A key is on the page exactly when it lies past the cursor and not past the page's last row. */
  lemma OnPage(keys: set<Key>, cursor: Option<Key>, limit: nat, k: Key)
    requires 0 < limit && k in keys
    ensures var page := PageOf(keys, cursor, limit);
            && (HasMore(keys, cursor, limit) ==> |page| == limit)
            && (k in page <==>
                  && (cursor.Some? ==> Before(cursor.value, k))
                  && (HasMore(keys, cursor, limit) ==> !Before(page[|page| - 1], k)))
  {
    var rows := Ordered(Past(keys, cursor));
    var page := PageOf(keys, cursor, limit);
    if HasMore(keys, cursor, limit) && k in rows {
      var i :| 0 <= i < |rows| && rows[i] == k;
      if i < limit {
        assert page[i] == k;
        assert !Before(rows[limit - 1], k) by {
          BeforeTotal(rows[limit - 1], k);
        }
      } else {
        assert Before(rows[limit - 1], k);
        if k in page {
          var j :| 0 <= j < |page| && page[j] == k;
          assert Before(rows[j], rows[i]);
          BeforeTotal(k, k);
        }
      }
    }
  }

  // ---- A walk over unchanging keys ----

  lemma AfterPrefix(rows: seq<Key>, n: nat, k: Key)
    requires Ascending(rows) && 0 < n <= |rows|
    ensures k in rows[n..] <==> k in rows && Before(rows[n - 1], k)
  {
    hide Before;
    if k in rows[n..] {
      var i :| 0 <= i < |rows[n..]| && rows[n..][i] == k;
      assert rows[n + i] == k;
    }
    if k in rows && Before(rows[n - 1], k) {
      var i :| 0 <= i < |rows| && rows[i] == k;
      BeforeTotal(rows[n - 1], k);
      assert n <= i;
      assert rows[n..][i - n] == k;
    }
  }

  /** Past the last key of a full prefix of the list lies exactly the rest of the list. */
  lemma PastPrefix(keys: set<Key>, cursor: Option<Key>, n: nat, k: Key)
    requires 0 < n <= |Ordered(Past(keys, cursor))|
    ensures var rows := Ordered(Past(keys, cursor));
            k in Past(keys, Some(rows[n - 1])) <==> k in rows[n..]
  {
    hide Before, Ordered, Ascending;
    var rows := Ordered(Past(keys, cursor));
    var last := rows[n - 1];
    assert last in rows;
    AfterPrefix(rows, n, k);
    if k in Past(keys, Some(last)) && cursor.Some? {
      BeforeTransitive(cursor.value, last, k);
    }
  }

  lemma PastShrinks(keys: set<Key>, cursor: Option<Key>, limit: nat)
    requires 0 < limit && HasMore(keys, cursor, limit)
    ensures var page := PageOf(keys, cursor, limit);
            var next := Some(page[|page| - 1]);
            && |page| == limit
            && Past(keys, next) < Past(keys, cursor)
            && Ordered(Past(keys, cursor)) == page + Ordered(Past(keys, next))
  {
    hide Before, Ordered;
    var rows := Ordered(Past(keys, cursor));
    var last := rows[limit - 1];
    var next := Some(last);
    assert last in rows;
    forall k ensures k in Past(keys, next) <==> k in rows[limit..] { PastPrefix(keys, cursor, limit, k); }
    assert Past(keys, next) <= Past(keys, cursor) by {
      forall k | k in Past(keys, next) ensures k in Past(keys, cursor) { assert k in rows[limit..]; assert k in rows; }
    }
    assert last !in Past(keys, next) by { BeforeTotal(last, last); }
    AscendingUnique(rows[limit..], Ordered(Past(keys, next)));
    assert rows == rows[..limit] + rows[limit..];
  }

  /** All pages from a cursor on, following the cursor each page hands out. */
  ghost function Walk(keys: set<Key>, cursor: Option<Key>, limit: nat): seq<seq<Key>>
    requires 0 < limit
    decreases Past(keys, cursor)
  {
    var page := PageOf(keys, cursor, limit);
    if HasMore(keys, cursor, limit) then
      PastShrinks(keys, cursor, limit);
      [page] + Walk(keys, Some(page[|page| - 1]), limit)
    else [page]
  }

  /** Following the cursors returns the whole ordered list, each row once, for every limit. */
  lemma {:induction false} WalkIsComplete(keys: set<Key>, cursor: Option<Key>, limit: nat)
    requires 0 < limit
    ensures Flatten(Walk(keys, cursor, limit)) == Ordered(Past(keys, cursor))
    ensures var pages := Walk(keys, cursor, limit);
            forall i :: 0 <= i < |pages| - 1 ==> |pages[i]| == limit
    decreases Past(keys, cursor)
  {
    hide Ordered, Past, Ascending;
    var page := PageOf(keys, cursor, limit);
    if HasMore(keys, cursor, limit) {
      PastShrinks(keys, cursor, limit);
      hide PageOf, HasMore;
      var next := Some(page[|page| - 1]);
      var rest := Walk(keys, next, limit);
      WalkIsComplete(keys, next, limit);
      assert Walk(keys, cursor, limit) == [page] + rest && ([page] + rest)[1..] == rest;
      assert Flatten([page] + rest) == page + Flatten(rest);
    } else {
      assert [page][1..] == [];
      assert Flatten([page]) == page + Flatten<Key>([]);
    }
  }

  // ---- A walk while the rows change ----

  /**
   * One walk over `states`: page `i` is read in state `i` past the cursor of the page before, and
   * the walk ends at the first page that reports no more.
   */
  ghost predicate WalkOver(states: seq<set<Key>>, cursors: seq<Option<Key>>, limit: nat) {
    && 0 < |states| == |cursors|
    && cursors[0] == None
    && (forall i :: 0 <= i < |states| - 1 ==>
          && HasMore(states[i], cursors[i], limit)
          && var page := PageOf(states[i], cursors[i], limit);
             page != [] && cursors[i + 1] == Some(page[|page| - 1]))
    && !HasMore(states[|states| - 1], cursors[|states| - 1], limit)
  }

  /** Cursors only move forward. */
  lemma {:induction false} CursorsAdvance(states: seq<set<Key>>, cursors: seq<Option<Key>>, limit: nat, i: nat, j: nat)
    requires 0 < limit && WalkOver(states, cursors, limit) && i < j < |states|
    ensures cursors[j].Some?
    ensures cursors[i].Some? ==> Before(cursors[i].value, cursors[j].value)
    decreases j
  {
    var page := PageOf(states[j - 1], cursors[j - 1], limit);
    assert page[|page| - 1] in Ordered(Past(states[j - 1], cursors[j - 1]));
    assert page[|page| - 1] in Past(states[j - 1], cursors[j - 1]);
    if i < j - 1 {
      CursorsAdvance(states, cursors, limit, i, j - 1);
      if cursors[i].Some? { BeforeTransitive(cursors[i].value, cursors[j - 1].value, cursors[j].value); }
    }
  }

  /** The first page whose end is not before the key; there is one, since the last page has no end. */
  lemma {:induction false} PageFound(states: seq<set<Key>>, cursors: seq<Option<Key>>, limit: nat, k: Key, i: nat)
    returns (found: nat)
    requires 0 < limit && WalkOver(states, cursors, limit) && i < |states|
    requires forall s :: s in states ==> k in s
    requires cursors[i].Some? ==> Before(cursors[i].value, k)
    ensures found < |states| && k in PageOf(states[found], cursors[found], limit)
    decreases |states| - i
  {
    assert states[i] in states;
    OnPage(states[i], cursors[i], limit, k);
    if k in PageOf(states[i], cursors[i], limit) {
      found := i;
    } else {
      assert i < |states| - 1;
      found := PageFound(states, cursors, limit, k, i + 1);
    }
  }

  /**
   * With rows inserted, deleted and updated between the pages, every row that stays in the filter
   * with its key unchanged is on exactly one page of the finished walk, and once on that page.
   */
  lemma StableRowOnce(states: seq<set<Key>>, cursors: seq<Option<Key>>, limit: nat, k: Key)
    requires 0 < limit && WalkOver(states, cursors, limit)
    requires forall s :: s in states ==> k in s
    ensures exists i :: 0 <= i < |states| && k in PageOf(states[i], cursors[i], limit)
    ensures forall i, j :: 0 <= i < |states| && 0 <= j < |states|
                           && k in PageOf(states[i], cursors[i], limit) && k in PageOf(states[j], cursors[j], limit)
                           ==> i == j
    ensures forall i :: 0 <= i < |states| ==> Ascending(PageOf(states[i], cursors[i], limit))
  {
    var found := PageFound(states, cursors, limit, k, 0);
    forall i, j | 0 <= i < j < |states|
      ensures !(k in PageOf(states[i], cursors[i], limit) && k in PageOf(states[j], cursors[j], limit))
    {
      LaterPageSkips(states, cursors, limit, k, i, j);
    }
  }

  lemma LaterPageSkips(states: seq<set<Key>>, cursors: seq<Option<Key>>, limit: nat, k: Key, i: nat, j: nat)
    requires 0 < limit && WalkOver(states, cursors, limit) && i < j < |states|
    ensures !(k in PageOf(states[i], cursors[i], limit) && k in PageOf(states[j], cursors[j], limit))
  {
    hide Ordered, Before;
    if k in PageOf(states[i], cursors[i], limit) {
      PageWithin(states[i], cursors[i], limit, k);
      if i + 1 < j { CursorsAdvance(states, cursors, limit, i + 1, j); }
      if Before(cursors[j].value, k) {
        if i + 1 < j { BeforeTransitive(cursors[i + 1].value, cursors[j].value, k); }
        assert false;
      }
      PastOnly(states[j], cursors[j], limit, k);
    }
  }

  lemma PageWithin(keys: set<Key>, cursor: Option<Key>, limit: nat, k: Key)
    requires 0 < limit && HasMore(keys, cursor, limit) && k in PageOf(keys, cursor, limit)
    ensures |PageOf(keys, cursor, limit)| == limit
    ensures !Before(PageOf(keys, cursor, limit)[limit - 1], k)
  {
    assert k in Ordered(Past(keys, cursor));
    OnPage(keys, cursor, limit, k);
  }

  lemma PastOnly(keys: set<Key>, cursor: Option<Key>, limit: nat, k: Key)
    requires cursor.Some? && !Before(cursor.value, k)
    ensures k !in PageOf(keys, cursor, limit)
  {
    assert k !in Ordered(Past(keys, cursor));
  }
}
