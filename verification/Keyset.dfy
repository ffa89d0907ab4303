/** Keyset pagination: fetch limit + 1 rows after a cursor, return the first `limit` of them, and
    build the next cursor from the last one returned. */
module Keyset {
  import opened Common

  /** What a listing needs of a row, signed so that the listing ascends: the value it is sorted by,
      the value that the cursor condition compares, the value it puts into a cursor, and its id. */
  datatype Row = Row(sort: int, mark: int, cur: int, id: int)

  /** `ORDER BY sort, id` */
  predicate Before(a: Row, b: Row) {
    a.sort < b.sort || (a.sort == b.sort && a.id < b.id)
  }

  /** `mark > :cur OR (mark = :cur AND id > :id)`, with the cursor of row `c`. */
  predicate After(c: Row, r: Row) {
    r.mark > c.cur || (r.mark == c.cur && r.id > c.id)
  }

  predicate Passes(cursor: Option<Row>, r: Row) {
    cursor.None? || After(cursor.value, r)
  }

  predicate Ascending(s: seq<Row>) {
    forall i, j :: 0 <= i < j < |s| ==> Before(s[i], s[j])
  }

  /** A cursor never carries more than its row compares with: it is the same value or a coarser one. */
  predicate Coarse(s: seq<Row>) {
    forall i :: 0 <= i < |s| ==> s[i].mark <= s[i].cur
  }

  function Filter(s: seq<Row>, cursor: Option<Row>): (r: seq<Row>)
    ensures |r| <= |s| && forall x :: x in r <==> x in s && Passes(cursor, x)
  {
    if s == [] then []
    else (if Passes(cursor, s[0]) then [s[0]] else []) + Filter(s[1..], cursor)
  }

  // ---- One page

  function Take(s: seq<Row>, n: nat): seq<Row> {
    if |s| > n then s[..n] else s
  }

  /** The rows of a page, and whether `limit + 1` rows were found. */
  function Page(listing: seq<Row>, cursor: Option<Row>, limit: nat): seq<Row> {
    Take(Filter(listing, cursor), limit)
  }

  predicate HasNext(listing: seq<Row>, cursor: Option<Row>, limit: nat) {
    |Filter(listing, cursor)| > limit
  }

  lemma AfterTransitive(s: seq<Row>, cursor: Option<Row>, l: Row, r: Row)
    requires Coarse(s) && l in s && Passes(cursor, l) && After(l, r)
    ensures Passes(cursor, r) && r != l
  {
  }

  lemma {:induction false} FilterShrinks(s: seq<Row>, whole: seq<Row>, cursor: Option<Row>, l: Row)
    requires Coarse(whole) && l in whole && Passes(cursor, l)
    ensures |Filter(s, Some(l))| <= |Filter(s, cursor)|
    ensures l in s ==> |Filter(s, Some(l))| < |Filter(s, cursor)|
  {
    if s != [] {
      FilterShrinks(s[1..], whole, cursor, l);
      if After(l, s[0]) {
        AfterTransitive(whole, cursor, l, s[0]);
      }
      assert l in s ==> l == s[0] || l in s[1..];
    }
  }

  /** Termination on any data: fewer rows are left after the cursor of the next page. */
  lemma PagesShrink(listing: seq<Row>, cursor: Option<Row>, limit: nat)
    requires Coarse(listing) && limit >= 1 && HasNext(listing, cursor, limit)
    ensures |Filter(listing, Some(Page(listing, cursor, limit)[limit - 1]))| < |Filter(listing, cursor)|
  {
    var last := Page(listing, cursor, limit)[limit - 1];
    assert last in Filter(listing, cursor);
    FilterShrinks(listing, listing, cursor, last);
  }

  /** Every row that the pages deliver when `nextCursor` is followed until it is null. */
  function Walk(listing: seq<Row>, cursor: Option<Row>, limit: nat): seq<Row>
    requires Coarse(listing) && limit >= 1
    decreases |Filter(listing, cursor)|
  {
    var page := Page(listing, cursor, limit);
    if HasNext(listing, cursor, limit) then
      PagesShrink(listing, cursor, limit);
      page + Walk(listing, Some(page[limit - 1]), limit)
    else page
  }

  // ---- Exactly once

  /** Every row comes after the cursors of all rows listed before it. */
  predicate Consistent(listing: seq<Row>) {
    forall i, j :: 0 <= i < j < |listing| ==> After(listing[i], listing[j])
  }

  lemma {:induction false} FilterNone(s: seq<Row>)
    ensures Filter(s, None) == s
  {
    if s != [] {
      FilterNone(s[1..]);
    }
  }

  lemma {:induction false} FilterKeepsAll(s: seq<Row>, c: Row)
    requires forall i :: 0 <= i < |s| ==> After(c, s[i])
    ensures Filter(s, Some(c)) == s
  {
    if s != [] {
      FilterKeepsAll(s[1..], c);
    }
  }

  lemma {:induction false} FilterKeepsNone(s: seq<Row>, c: Row)
    requires forall i :: 0 <= i < |s| ==> !After(c, s[i])
    ensures Filter(s, Some(c)) == []
  {
    if s != [] {
      FilterKeepsNone(s[1..], c);
    }
  }

  lemma {:induction false} FilterConcat(s: seq<Row>, t: seq<Row>, cursor: Option<Row>)
    ensures Filter(s + t, cursor) == Filter(s, cursor) + Filter(t, cursor)
  {
    hide Passes;
    if s == [] {
      assert s + t == t;
    } else {
      assert (s + t)[1..] == s[1..] + t;
      FilterConcat(s[1..], t, cursor);
      var head := if Passes(cursor, s[0]) then [s[0]] else [];
      assert head + (Filter(s[1..], cursor) + Filter(t, cursor)) == head + Filter(s[1..], cursor) + Filter(t, cursor);
    }
  }

  /** In a consistent listing the cursor of row i - 1 cuts exactly before row i. */
  lemma CursorCuts(listing: seq<Row>, i: nat)
    requires Coarse(listing) && Consistent(listing) && 0 < i <= |listing|
    ensures Filter(listing, Some(listing[i - 1])) == listing[i..]
  {
    hide Filter;
    var c := listing[i - 1];
    assert listing == listing[..i] + listing[i..];
    FilterConcat(listing[..i], listing[i..], Some(c));
    forall k | 0 <= k < i ensures !After(c, listing[k]) {
      assert k < i - 1 ==> After(listing[k], c);
    }
    FilterKeepsNone(listing[..i], c);
    FilterKeepsAll(listing[i..], c);
  }

  lemma {:induction false} WalkFrom(listing: seq<Row>, cursor: Option<Row>, limit: nat, i: nat)
    requires Coarse(listing) && Consistent(listing) && limit >= 1 && i <= |listing|
    requires Filter(listing, cursor) == listing[i..]
    ensures Walk(listing, cursor, limit) == listing[i..]
    decreases |listing| - i
  {
    hide Filter, Consistent, Coarse;
    if HasNext(listing, cursor, limit) {
      var page := Page(listing, cursor, limit);
      assert page == listing[i..i + limit] && page[limit - 1] == listing[i + limit - 1];
      CursorCuts(listing, i + limit);
      WalkFrom(listing, Some(page[limit - 1]), limit, i + limit);
      assert listing[i..] == page + listing[i + limit..];
    }
  }

  /** A walk delivers only rows that pass its first cursor. */
  lemma {:induction false} WalkPasses(listing: seq<Row>, cursor: Option<Row>, limit: nat, r: Row)
    requires Coarse(listing) && limit >= 1 && r in Walk(listing, cursor, limit)
    ensures Passes(cursor, r)
    decreases |Filter(listing, cursor)|
  {
    var page := Page(listing, cursor, limit);
    if r in page {
      assert r in Filter(listing, cursor);
    } else {
      PagesShrink(listing, cursor, limit);
      var last := page[limit - 1];
      assert last in Filter(listing, cursor);
      WalkPasses(listing, Some(last), limit, r);
      AfterTransitive(listing, cursor, last, r);
    }
  }

  /** The first row found comes before all others that pass. */
  lemma {:induction false} FilterStarts(s: seq<Row>, cursor: Option<Row>, i: nat)
    requires Ascending(s) && i < |s| && Passes(cursor, s[i])
    ensures Filter(s, cursor) != []
    ensures Filter(s, cursor)[0] == s[i] || Before(Filter(s, cursor)[0], s[i])
  {
    if !Passes(cursor, s[0]) {
      FilterStarts(s[1..], cursor, i - 1);
    }
  }

  /** With one row per page, of a row and a later one that the first one's cursor does not let through
      at least one is never delivered. */
  lemma {:induction false} MissedRow(listing: seq<Row>, cursor: Option<Row>, i: nat, j: nat)
    requires Ascending(listing) && Coarse(listing) && i < j < |listing| && !After(listing[i], listing[j])
    ensures var walk := Walk(listing, cursor, 1); listing[i] !in walk || listing[j] !in walk
    decreases |Filter(listing, cursor)|
  {
    hide After, Filter, Passes, Ascending, Coarse;
    assert Before(listing[i], listing[j]) by { RowsAscend(listing, i, j); }
    var first, second := listing[i], listing[j];
    if HasNext(listing, cursor, 1) && first in Walk(listing, cursor, 1) && second in Walk(listing, cursor, 1) {
      PagesShrink(listing, cursor, 1);
      var last := Page(listing, cursor, 1)[0];
      assert Page(listing, cursor, 1) == [last];
      if last == second {
        WalkPasses(listing, cursor, 1, first);
        FilterStarts(listing, cursor, i);
      } else if last == first {
        WalkPasses(listing, Some(first), 1, second);
        assert Passes(Some(first), second);
        PassesIs(first, second);
      } else {
        MissedRow(listing, Some(last), i, j);
      }
    }
  }

  lemma RowsAscend(s: seq<Row>, i: nat, j: nat)
    requires Ascending(s) && i < j < |s|
    ensures Before(s[i], s[j])
  {
  }

  lemma PassesIs(c: Row, r: Row)
    ensures Passes(Some(c), r) <==> After(c, r)
  {
  }

  /** Every page size that a listing with this maximum accepts. */
  predicate ExactlyOnce(listing: seq<Row>, max: nat)
    requires Coarse(listing)
  {
    forall limit: nat :: 1 <= limit <= max ==> Walk(listing, None, limit) == listing
  }

  /** Following the cursors delivers every row exactly once, in listing order, for every accepted page
      size, exactly when each row comes after the cursors of the rows before it. */
  lemma ExactlyOnceIff(listing: seq<Row>, max: nat)
    requires Ascending(listing) && Coarse(listing) && max >= 1
    ensures ExactlyOnce(listing, max) <==> Consistent(listing)
  {
    hide Walk, Filter, After;
    FilterNone(listing);
    if Consistent(listing) {
      forall limit: nat | 1 <= limit <= max ensures Walk(listing, None, limit) == listing {
        assert listing[0..] == listing;
        WalkFrom(listing, None, limit, 0);
      }
    } else {
      var i, j :| 0 <= i < j < |listing| && !After(listing[i], listing[j]);
      MissedRow(listing, None, i, j);
      assert listing[i] in listing && listing[j] in listing;
      assert Walk(listing, None, 1) != listing;
    }
  }

  // ---- The listings of the shop

  /** Products by price or title, ascending or (with negated values) descending. */
  function ByValue(value: int, id: int, descending: bool): Row {
    if descending then Row(-value, -value, -value, -id) else Row(value, value, value, id)
  }

  /** Orders, products and reviews by creation time: sorted by the full timestamp in microseconds,
      compared and cut in milliseconds. */
  function ByTime(micros: int, id: int, descending: bool): Row {
    var millis := micros / 1000;
    if descending then Row(-micros, -millis, -millis, -id) else Row(micros, millis, millis, id)
  }

  /** Users: compared by the full timestamp, but with a cursor that has been cut to milliseconds. */
  function ByCutTime(micros: int, id: int): Row {
    Row(-micros, -micros, -(micros / 1000 * 1000), -id)
  }

  datatype Valued = Valued(value: int, id: int)

  function ValueKeys(rows: seq<Valued>, descending: bool): (s: seq<Row>)
    ensures |s| == |rows|
  {
    seq(|rows|, i requires 0 <= i < |rows| => ByValue(rows[i].value, rows[i].id, descending))
  }

  /** Listings by price or title deliver every row exactly once, for every page size and both
      directions, without any condition on the data. */
  lemma ValueListings(rows: seq<Valued>, descending: bool, limit: nat)
    requires Ascending(ValueKeys(rows, descending)) && limit >= 1
    ensures Coarse(ValueKeys(rows, descending))
    ensures Walk(ValueKeys(rows, descending), None, limit) == ValueKeys(rows, descending)
  {
    hide Walk;
    var listing := ValueKeys(rows, descending);
    forall i, j | 0 <= i < j < |listing| ensures After(listing[i], listing[j]) {
      assert Before(listing[i], listing[j]);
    }
    ExactlyOnceIff(listing, limit);
  }

  datatype Stamp = Stamp(micros: int, id: int)

  function TimeKeys(stamps: seq<Stamp>, descending: bool): (s: seq<Row>)
    ensures |s| == |stamps|
  {
    seq(|stamps|, i requires 0 <= i < |stamps| => ByTime(stamps[i].micros, stamps[i].id, descending))
  }

  function CutTimeKeys(stamps: seq<Stamp>): (s: seq<Row>)
    ensures |s| == |stamps|
  {
    seq(|stamps|, i requires 0 <= i < |stamps| => ByCutTime(stamps[i].micros, stamps[i].id))
  }

  predicate SameMillisecond(a: Stamp, b: Stamp) {
    a.micros / 1000 == b.micros / 1000
  }

  /** Rows created in the same millisecond are listed in the order of their ids. */
  predicate IdsFollow(stamps: seq<Stamp>, descending: bool) {
    forall i, j :: 0 <= i < j < |stamps| && SameMillisecond(stamps[i], stamps[j]) ==>
      if descending then stamps[i].id > stamps[j].id else stamps[i].id < stamps[j].id
  }

  predicate SharedTimestamps(stamps: seq<Stamp>) {
    forall i, j :: 0 <= i < j < |stamps| && SameMillisecond(stamps[i], stamps[j]) ==>
      stamps[i].micros == stamps[j].micros
  }

  // The page sizes that the listings accept end here.
  const MAX_PRODUCTS_LIMIT := 50
  const MAX_REVIEWS_LIMIT := 50
  const MAX_ORDERS_LIMIT := 50
  const MAX_USERS_LIMIT := 100

  lemma TimeConsistentIff(stamps: seq<Stamp>, descending: bool)
    requires Ascending(TimeKeys(stamps, descending))
    ensures Coarse(TimeKeys(stamps, descending))
    ensures Consistent(TimeKeys(stamps, descending)) <==> IdsFollow(stamps, descending)
    ensures SharedTimestamps(stamps) ==> IdsFollow(stamps, descending)
  {
    var listing := TimeKeys(stamps, descending);
    forall i, j | 0 <= i < j < |stamps|
      ensures After(listing[i], listing[j]) <==>
              (SameMillisecond(stamps[i], stamps[j]) ==>
                 if descending then stamps[i].id > stamps[j].id else stamps[i].id < stamps[j].id)
      ensures stamps[i].micros == stamps[j].micros ==>
                if descending then stamps[i].id > stamps[j].id else stamps[i].id < stamps[j].id
    {
      assert Before(listing[i], listing[j]);
    }
    if Consistent(listing) {
      assert forall i, j :: 0 <= i < j < |listing| ==> After(listing[i], listing[j]);
    }
  }

  /** Products and reviews by time are delivered exactly once for every accepted page size exactly when
      ids follow the listing within each millisecond; sharing the timestamp is enough. */
  lemma TimeListingsIff(stamps: seq<Stamp>, descending: bool)
    requires Ascending(TimeKeys(stamps, descending))
    ensures var listing := TimeKeys(stamps, descending);
            && Coarse(listing)
            && (ExactlyOnce(listing, MAX_PRODUCTS_LIMIT) <==> IdsFollow(stamps, descending))
            && (ExactlyOnce(listing, MAX_REVIEWS_LIMIT) <==> IdsFollow(stamps, descending))
            && (SharedTimestamps(stamps) ==> IdsFollow(stamps, descending))
  {
    hide Walk, Consistent, IdsFollow, SharedTimestamps, Ascending, Coarse;
    TimeConsistentIff(stamps, descending);
    ExactlyOnceIff(TimeKeys(stamps, descending), MAX_PRODUCTS_LIMIT);
    ExactlyOnceIff(TimeKeys(stamps, descending), MAX_REVIEWS_LIMIT);
  }

  /** No row of the users listing shares its millisecond with a row listed before it, unless it was
      created exactly on the millisecond and its id follows. */
  predicate Separated(stamps: seq<Stamp>) {
    forall i, j :: 0 <= i < j < |stamps| && SameMillisecond(stamps[i], stamps[j]) ==>
      stamps[j].micros % 1000 == 0 && stamps[i].id > stamps[j].id
  }

  lemma UsersListingIff(stamps: seq<Stamp>)
    requires Ascending(CutTimeKeys(stamps))
    ensures var listing := CutTimeKeys(stamps);
            Coarse(listing) && (ExactlyOnce(listing, MAX_USERS_LIMIT) <==> Separated(stamps))
  {
    hide Walk;
    var listing := CutTimeKeys(stamps);
    forall i, j | 0 <= i < j < |stamps|
      ensures After(listing[i], listing[j]) <==>
              (SameMillisecond(stamps[i], stamps[j]) ==> stamps[j].micros % 1000 == 0 && stamps[i].id > stamps[j].id)
    {
      assert Before(listing[i], listing[j]);
      CutComparison(stamps[i], stamps[j]);
    }
    ExactlyOnceIff(listing, MAX_USERS_LIMIT);
    if Consistent(listing) {
      assert forall i, j :: 0 <= i < j < |listing| ==> After(listing[i], listing[j]);
    }
  }

  lemma CutComparison(a: Stamp, b: Stamp)
    requires a.micros >= b.micros
    ensures b.micros < a.micros / 1000 * 1000 <==> !SameMillisecond(a, b)
    ensures b.micros == a.micros / 1000 * 1000 <==> SameMillisecond(a, b) && b.micros % 1000 == 0
  {
  }

  /** Two users created within one millisecond: with one user per page the second is never listed. */
  lemma UsersListingSkips()
    ensures var listing := CutTimeKeys([Stamp(1700, 8), Stamp(1300, 9)]);
            Ascending(listing) && Coarse(listing) && Walk(listing, None, 1) == [listing[0]]
  {
    var listing := CutTimeKeys([Stamp(1700, 8), Stamp(1300, 9)]);
    FilterNone(listing);
    FilterKeepsNone(listing, listing[0]);
    assert Page(listing, None, 1) == [listing[0]];
    PagesShrink(listing, None, 1);
    assert Walk(listing, Some(listing[0]), 1) == [];
  }

  /** Two orders created within one millisecond, ids against the timestamps: with one order per page
      the second is never listed. */
  lemma OrdersListingSkips()
    ensures var listing := TimeKeys([Stamp(1700, 8), Stamp(1300, 9)], true);
            Ascending(listing) && Coarse(listing) && Walk(listing, None, 1) == [listing[0]]
  {
    var listing := TimeKeys([Stamp(1700, 8), Stamp(1300, 9)], true);
    FilterNone(listing);
    FilterKeepsNone(listing, listing[0]);
    assert Page(listing, None, 1) == [listing[0]];
    PagesShrink(listing, None, 1);
    assert Walk(listing, Some(listing[0]), 1) == [];
  }
}
