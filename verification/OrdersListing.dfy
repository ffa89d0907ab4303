/** The orders listing: a query builder that is extended in place, a first query for the ids of a
    page, a second one that loads the orders, and the cursor of the next page. */
module OrdersListing {
  import opened Common
  import opened Protocol
  import Keyset
  import Like

  /** A row of the orders table with the titles of its items' products, soft-deleted ones aside.
      `createdAt` is in microseconds; titles are case-folded. */
  datatype OrderRow = OrderRow(id: int, user: UserId, status: Status, createdAt: int, titles: seq<string>)

  /** `productName` is case-folded; an empty one counts as absent. */
  datatype Filters = Filters(
    status: Option<Status>,
    startDate: Option<int>,
    endDate: Option<int>,
    productName: Option<string>)

  /** The decoded cursor: JavaScript dates have milliseconds. */
  datatype Cursor = Cursor(millis: int, id: int)

  datatype Condition =
    | ByUser(user: UserId)
    | ByStatus(status: Status)
    | Since(from: int)
    | Until(upTo: int)
    | AnyTitleLike(pattern: string)
    | Below(cursor: Cursor)
    | IdIn(ids: seq<int>)

  predicate Holds(c: Condition, r: OrderRow) {
    match c
    case ByUser(user) => r.user == user
    case ByStatus(status) => r.status == status
    case Since(from) => r.createdAt >= from
    case Until(upTo) => r.createdAt <= upTo
    case AnyTitleLike(pattern) =>
      exists i :: 0 <= i < |r.titles| && Like.Matches(r.titles[i], pattern, '\\', c => c)
    case Below(cursor) =>
      r.createdAt / 1000 < cursor.millis || (r.createdAt / 1000 == cursor.millis && r.id < cursor.id)
    case IdIn(ids) => r.id in ids
  }

  /** WHERE with all conditions; the joins of the product filter are grouped back to one row per order. */
  predicate Satisfies(conditions: seq<Condition>, r: OrderRow) {
    forall i :: 0 <= i < |conditions| ==> Holds(conditions[i], r)
  }

  function Select(rows: seq<OrderRow>, conditions: seq<Condition>): (s: seq<OrderRow>)
    ensures forall r :: r in s ==> r in rows && Satisfies(conditions, r)
  {
    if rows == [] then []
    else (if Satisfies(conditions, rows[0]) then [rows[0]] else []) + Select(rows[1..], conditions)
  }

  predicate Newer(a: OrderRow, b: OrderRow) {
    a.createdAt > b.createdAt || (a.createdAt == b.createdAt && a.id > b.id)
  }

  function Insert(r: OrderRow, rows: seq<OrderRow>): seq<OrderRow> {
    if rows == [] || Newer(r, rows[0]) then [r] + rows else [rows[0]] + Insert(r, rows[1..])
  }

  /** ORDER BY created_at DESC, id DESC */
  function Listed(rows: seq<OrderRow>): seq<OrderRow> {
    if rows == [] then [] else Insert(rows[0], Listed(rows[1..]))
  }

  function Limited(rows: seq<OrderRow>, limit: Option<nat>): seq<OrderRow> {
    if limit.Some? && |rows| > limit.value then rows[..limit.value] else rows
  }

  /** The primary key is unique. */
  predicate UniqueIds(rows: seq<OrderRow>) {
    forall i, j :: 0 <= i < j < |rows| ==> rows[i].id != rows[j].id
  }

  function Ids(rows: seq<OrderRow>): (ids: seq<int>)
    ensures |ids| == |rows|
  {
    seq(|rows|, i requires 0 <= i < |rows| => rows[i].id)
  }

  // ---- ORDER BY is a sort, and WHERE commutes with it

  predicate Descending(rows: seq<OrderRow>) {
    forall i, j :: 0 <= i < j < |rows| ==> Newer(rows[i], rows[j])
  }

  lemma {:induction false} InsertDescends(r: OrderRow, rows: seq<OrderRow>)
    requires Descending(rows) && forall i :: 0 <= i < |rows| ==> rows[i].id != r.id
    ensures Descending(Insert(r, rows)) && multiset(Insert(r, rows)) == multiset(rows) + multiset{r}
  {
    if rows == [] {
    } else if Newer(r, rows[0]) {
      assert multiset([r] + rows) == multiset{r} + multiset(rows);
    } else {
      InsertDescends(r, rows[1..]);
      var tail := Insert(r, rows[1..]);
      assert rows == [rows[0]] + rows[1..];
      forall k | 0 <= k < |tail| ensures Newer(rows[0], tail[k]) {
        assert tail[k] in multiset(tail);
        assert tail[k] == r || tail[k] in rows[1..];
      }
    }
  }

  lemma {:induction false} ListedSorts(rows: seq<OrderRow>)
    requires UniqueIds(rows)
    ensures Descending(Listed(rows)) && multiset(Listed(rows)) == multiset(rows)
  {
    hide Descending, Insert;
    if rows != [] {
      var first, rest, sorted := rows[0], rows[1..], Listed(rows[1..]);
      ListedSorts(rest);
      assert rows == [first] + rest;
      forall i | 0 <= i < |sorted| ensures sorted[i].id != first.id {
        assert sorted[i] in multiset(sorted) && sorted[i] in rest;
      }
      InsertDescends(first, sorted);
    } else {
      NothingDescends();
    }
  }

  lemma NothingDescends()
    ensures Descending([])
  {
  }

  lemma SelectCons(r: OrderRow, rows: seq<OrderRow>, conditions: seq<Condition>)
    ensures Select([r] + rows, conditions)
         == if Satisfies(conditions, r) then [r] + Select(rows, conditions) else Select(rows, conditions)
  {
    assert ([r] + rows)[1..] == rows;
  }

  lemma InsertCons(r: OrderRow, top: OrderRow, rows: seq<OrderRow>)
    ensures Insert(r, [top] + rows) == if Newer(r, top) then [r, top] + rows else [top] + Insert(r, rows)
  {
    assert ([top] + rows)[1..] == rows;
    assert [r] + ([top] + rows) == [r, top] + rows;
  }

  /** Inserting above all rows that are selected. */
  lemma InsertOnTop(r: OrderRow, rows: seq<OrderRow>, conditions: seq<Condition>)
    requires Descending(rows) && (rows == [] || Newer(r, rows[0]))
    ensures Insert(r, Select(rows, conditions)) == [r] + Select(rows, conditions)
  {
    hide Satisfies;
    var kept := Select(rows, conditions);
    assert kept != [] ==> kept[0] in rows;
  }

  lemma {:induction false} SelectInsert(r: OrderRow, rows: seq<OrderRow>, conditions: seq<Condition>)
    requires Descending(rows)
    ensures Select(Insert(r, rows), conditions)
         == if Satisfies(conditions, r) then Insert(r, Select(rows, conditions)) else Select(rows, conditions)
  {
    hide Satisfies, Newer, Select;
    if rows == [] || Newer(r, rows[0]) {
      SelectCons(r, rows, conditions);
      InsertOnTop(r, rows, conditions);
    } else {
      var rest := rows[1..];
      assert rows == [rows[0]] + rest;
      SelectInsert(r, rest, conditions);
      SelectCons(rows[0], Insert(r, rest), conditions);
      SelectCons(rows[0], rest, conditions);
      InsertCons(r, rows[0], Select(rest, conditions));
    }
  }

  lemma {:induction false} SelectListed(rows: seq<OrderRow>, conditions: seq<Condition>)
    requires UniqueIds(rows)
    ensures Listed(Select(rows, conditions)) == Select(Listed(rows), conditions)
  {
    hide Satisfies, Insert;
    if rows != [] {
      SelectListed(rows[1..], conditions);
      ListedSorts(rows[1..]);
      SelectInsert(rows[0], Listed(rows[1..]), conditions);
      SelectCons(rows[0], rows[1..], conditions);
      assert rows == [rows[0]] + rows[1..];
      var kept := Select(rows[1..], conditions);
      assert ([rows[0]] + kept)[1..] == kept;
    }
  }

  lemma SatisfiesBoth(c: seq<Condition>, d: seq<Condition>, r: OrderRow)
    ensures Satisfies(c + d, r) <==> Satisfies(c, r) && Satisfies(d, r)
  {
    if Satisfies(c + d, r) {
      assert forall i :: 0 <= i < |c| ==> (c + d)[i] == c[i];
      assert forall i :: 0 <= i < |d| ==> (c + d)[|c| + i] == d[i];
    }
  }

  lemma {:induction false} SelectTwice(rows: seq<OrderRow>, c: seq<Condition>, d: seq<Condition>)
    ensures Select(rows, c + d) == Select(Select(rows, c), d)
  {
    hide Satisfies;
    if rows != [] {
      SatisfiesBoth(c, d, rows[0]);
      SelectTwice(rows[1..], c, d);
      assert rows == [rows[0]] + rows[1..];
      SelectCons(rows[0], rows[1..], c);
      SelectCons(rows[0], rows[1..], c + d);
      SelectCons(rows[0], Select(rows[1..], c), d);
    }
  }

  // ---- The query builder (orders-query-builder.ts)

  function Wanted(user: UserId, filters: Filters): seq<Condition> {
    [ByUser(user)]
    + (if filters.status.Some? then [ByStatus(filters.status.value)] else [])
    + (if filters.startDate.Some? then [Since(filters.startDate.value)] else [])
    + (if filters.endDate.Some? then [Until(filters.endDate.value)] else [])
    + (if filters.productName.Some? then [AnyTitleLike("%" + filters.productName.value + "%")] else [])
  }

  function AfterCursor(cursor: Option<Cursor>): seq<Condition> {
    if cursor.Some? then [Below(cursor.value)] else []
  }

  class SelectQuery {
    var conditions: seq<Condition>
    var ordered: bool
    var limit: Option<nat>

    constructor ()
      ensures conditions == [] && !ordered && limit == None
    {
      conditions, ordered, limit := [], false, None;
    }

    method AndWhere(c: Condition)
      modifies this`conditions
      ensures conditions == old(conditions) + [c]
    {
      conditions := conditions + [c];
    }

    method OrderByCreation()
      modifies this`ordered
      ensures ordered
    {
      ordered := true;
    }

    method Take(n: nat)
      modifies this`limit
      ensures limit == Some(n)
    {
      limit := Some(n);
    }

    /** What PostgreSQL answers. */
    function GetMany(table: seq<OrderRow>): seq<OrderRow>
      reads this
    {
      var found := Select(table, conditions);
      Limited(if ordered then Listed(found) else found, limit)
    }
  }

  method ApplyCursorPagination(qb: SelectQuery, cursor: Cursor)
    modifies qb`conditions
    ensures qb.conditions == old(qb.conditions) + [Below(cursor)]
  {
    qb.AndWhere(Below(cursor));
  }

  method ApplyOrderingAndLimit(qb: SelectQuery, limit: nat)
    modifies qb`ordered, qb`limit
    ensures qb.ordered && qb.limit == Some(limit)
  {
    qb.OrderByCreation();
    qb.Take(limit);
  }

  method BuildOrderIdsSubquery(user: UserId, filters: Filters) returns (qb: SelectQuery)
    ensures fresh(qb) && qb.conditions == Wanted(user, filters) && !qb.ordered && qb.limit == None
    ensures forall r: OrderRow :: Satisfies(qb.conditions, r) <==> AskedFor(r, user, filters, None)
  {
    hide Satisfies, AskedFor;
    qb := new SelectQuery();
    qb.AndWhere(ByUser(user));
    if filters.status.Some? {
      qb.AndWhere(ByStatus(filters.status.value));
    }
    if filters.startDate.Some? {
      qb.AndWhere(Since(filters.startDate.value));
    }
    if filters.endDate.Some? {
      qb.AndWhere(Until(filters.endDate.value));
    }
    if filters.productName.Some? {
      qb.AndWhere(AnyTitleLike("%" + filters.productName.value + "%"));
    }
    WantedHolds(user, filters);
  }

  method BuildMainQuery(orderIds: seq<int>) returns (qb: SelectQuery)
    ensures fresh(qb) && qb.conditions == [IdIn(orderIds)] && qb.ordered && qb.limit == None
  {
    qb := new SelectQuery();
    qb.AndWhere(IdIn(orderIds));
    qb.OrderByCreation();
  }

  // ---- A page (orders-query.service.ts)

  /** All matching orders of the user, newest first. */
  function Listing(table: seq<OrderRow>, user: UserId, filters: Filters): seq<OrderRow> {
    Select(Listed(table), Wanted(user, filters))
  }

  function Rest(table: seq<OrderRow>, user: UserId, filters: Filters, cursor: Option<Cursor>): seq<OrderRow> {
    Select(Listing(table, user, filters), AfterCursor(cursor))
  }

  function CursorOf(r: OrderRow): Cursor {
    Cursor(r.createdAt / 1000, r.id)
  }

  datatype Found = Found(orders: seq<OrderRow>, next: Option<Cursor>)

  /** What one request must answer. */
  function FindOrders(table: seq<OrderRow>, user: UserId, filters: Filters, cursor: Option<Cursor>, limit: nat): Found
    requires limit >= 1
  {
    var rest := Rest(table, user, filters, cursor);
    if |rest| > limit then Found(rest[..limit], Some(CursorOf(rest[limit - 1]))) else Found(rest, None)
  }

  lemma {:induction false} SelectDescends(rows: seq<OrderRow>, conditions: seq<Condition>)
    requires Descending(rows)
    ensures Descending(Select(rows, conditions))
  {
    hide Satisfies;
    if rows != [] {
      SelectDescends(rows[1..], conditions);
      assert forall r :: r in rows[1..] ==> Newer(rows[0], r);
    }
  }

  /** Loading the ids of a page loads exactly that page, in the same order. */
  lemma {:induction false} SelectIds(rows: seq<OrderRow>, conditions: seq<Condition>, n: nat)
    requires UniqueIds(rows)
    ensures var page := Limited(Select(rows, conditions), Some(n)); Select(rows, [IdIn(Ids(page))]) == page
  {
    hide Satisfies, Ids, Limited, Select;
    if rows == [] {
      NoRows(conditions, n);
    } else {
      var first, rest := rows[0], rows[1..];
      assert rows == [first] + rest;
      LimitedFirst(first, rest, conditions, n);
      assert forall r :: r in rest ==> r.id != first.id;
      if Satisfies(conditions, first) && n > 0 {
        SelectIds(rest, conditions, n - 1);
        ChoiceTakes(first, rest, Limited(Select(rest, conditions), Some(n - 1)));
      } else {
        SelectIds(rest, conditions, n);
        ChoiceSkips(first, rest, Limited(Select(rest, conditions), Some(n)));
      }
    }
  }

  lemma NoRows(conditions: seq<Condition>, n: nat)
    ensures forall c: seq<Condition> :: Select([], c) == []
    ensures Limited(Select([], conditions), Some(n)) == []
  {
  }

  lemma LimitedFirst(first: OrderRow, rest: seq<OrderRow>, conditions: seq<Condition>, n: nat)
    ensures Limited(Select([first] + rest, conditions), Some(n))
         == if Satisfies(conditions, first) && n > 0
            then [first] + Limited(Select(rest, conditions), Some(n - 1))
            else Limited(Select(rest, conditions), Some(n))
  {
    hide Satisfies, Select;
    SelectCons(first, rest, conditions);
  }

  lemma IdsFirst(first: OrderRow, page: seq<OrderRow>)
    ensures Ids([first] + page) == [first.id] + Ids(page)
  {
  }

  lemma ChoiceTakes(first: OrderRow, rest: seq<OrderRow>, page: seq<OrderRow>)
    requires forall r :: r in rest ==> r.id != first.id
    requires Select(rest, [IdIn(Ids(page))]) == page
    ensures Select([first] + rest, [IdIn(Ids([first] + page))]) == [first] + page
  {
    hide Satisfies, Ids;
    var ids := Ids([first] + page);
    IdsFirst(first, page);
    InChoice(first, ids);
    SameChoice(rest, ids, Ids(page));
    assert ([first] + rest)[1..] == rest;
  }

  lemma ChoiceSkips(first: OrderRow, rest: seq<OrderRow>, page: seq<OrderRow>)
    requires forall r :: r in rest ==> r.id != first.id
    requires Select(rest, [IdIn(Ids(page))]) == page
    ensures Select([first] + rest, [IdIn(Ids(page))]) == page
  {
    hide Satisfies;
    forall r | r in page ensures r.id != first.id {
      assert r in rest;
    }
    InChoice(first, Ids(page));
    assert ([first] + rest)[1..] == rest;
  }

  lemma InChoice(r: OrderRow, ids: seq<int>)
    ensures Satisfies([IdIn(ids)], r) <==> r.id in ids
  {
    assert [IdIn(ids)][0] == IdIn(ids);
  }

  lemma {:induction false} SameChoice(rows: seq<OrderRow>, ids: seq<int>, others: seq<int>)
    requires forall i :: 0 <= i < |rows| ==> (rows[i].id in ids <==> rows[i].id in others)
    ensures Select(rows, [IdIn(ids)]) == Select(rows, [IdIn(others)])
  {
    hide Satisfies;
    if rows != [] {
      InChoice(rows[0], ids);
      InChoice(rows[0], others);
      SameChoice(rows[1..], ids, others);
    }
  }

  lemma ListedUniqueIds(table: seq<OrderRow>)
    requires UniqueIds(table)
    ensures UniqueIds(Listed(table))
  {
    ListedSorts(table);
    var rows := Listed(table);
    forall i, j | 0 <= i < j < |rows| ensures rows[i].id != rows[j].id {
      assert Newer(rows[i], rows[j]);
      assert rows[i] in multiset(rows) && rows[j] in multiset(rows);
      var k :| 0 <= k < |table| && table[k] == rows[i];
      var l :| 0 <= l < |table| && table[l] == rows[j];
      assert k != l;
    }
  }

  lemma FirstQuery(table: seq<OrderRow>, user: UserId, filters: Filters, cursor: Option<Cursor>)
    requires UniqueIds(table)
    ensures Listed(Select(table, Wanted(user, filters) + AfterCursor(cursor))) == Rest(table, user, filters, cursor)
  {
    hide Select, Listed, Wanted, AfterCursor;
    SelectListed(table, Wanted(user, filters) + AfterCursor(cursor));
    SelectTwice(Listed(table), Wanted(user, filters), AfterCursor(cursor));
  }

  lemma SecondQuery(table: seq<OrderRow>, user: UserId, filters: Filters, cursor: Option<Cursor>, n: nat)
    requires UniqueIds(table)
    ensures var page := Limited(Rest(table, user, filters, cursor), Some(n));
            Listed(Select(table, [IdIn(Ids(page))])) == page
  {
    hide Select, Listed, Wanted, AfterCursor, Ids;
    var page := Limited(Rest(table, user, filters, cursor), Some(n));
    SelectListed(table, [IdIn(Ids(page))]);
    SelectTwice(Listed(table), Wanted(user, filters), AfterCursor(cursor));
    ListedUniqueIds(table);
    SelectIds(Listed(table), Wanted(user, filters) + AfterCursor(cursor), n);
  }

  // ---- What a request asks for, column by column

  ghost predicate TitleFound(titles: seq<string>, name: string) {
    exists i :: 0 <= i < |titles| && Like.Matches(titles[i], "%" + name + "%", '\\', c => c)
  }

  /** An order of the caller's own with the given status, created within the given dates, with a matching
      title when a name is given, and older than the cursor. */
  ghost predicate AskedFor(r: OrderRow, user: UserId, filters: Filters, cursor: Option<Cursor>) {
    && r.user == user
    && (filters.status.Some? ==> r.status == filters.status.value)
    && (filters.startDate.Some? ==> filters.startDate.value <= r.createdAt)
    && (filters.endDate.Some? ==> r.createdAt <= filters.endDate.value)
    && (filters.productName.Some? ==> TitleFound(r.titles, filters.productName.value))
    && (cursor.Some? ==>
          || r.createdAt / 1000 < cursor.value.millis
          || (r.createdAt / 1000 == cursor.value.millis && r.id < cursor.value.id))
  }

  ghost predicate NewestFirst(rows: seq<OrderRow>) {
    forall i, j :: 0 <= i < j < |rows| ==>
      || rows[j].createdAt < rows[i].createdAt
      || (rows[j].createdAt == rows[i].createdAt && rows[j].id < rows[i].id)
  }

  lemma {:induction false} SelectHas(rows: seq<OrderRow>, conditions: seq<Condition>, r: OrderRow)
    ensures r in Select(rows, conditions) <==> r in rows && Satisfies(conditions, r)
  {
    hide Satisfies;
    if rows != [] {
      SelectHas(rows[1..], conditions, r);
      assert r in rows <==> r == rows[0] || r in rows[1..];
    }
  }

  lemma ListedHas(table: seq<OrderRow>, r: OrderRow)
    requires UniqueIds(table)
    ensures r in Listed(table) <==> r in table
  {
    hide Listed;
    ListedSorts(table);
    assert r in multiset(Listed(table)) <==> r in multiset(table);
  }

  lemma OneCondition(c: Condition, r: OrderRow)
    ensures Satisfies([c], r) <==> Holds(c, r)
  {
    assert [c][0] == c;
  }

  /** `Wanted` and `AfterCursor` say what a request asks for. */
  lemma WantedIsAskedFor(user: UserId, filters: Filters, cursor: Option<Cursor>, r: OrderRow)
    ensures Satisfies(Wanted(user, filters), r) && Satisfies(AfterCursor(cursor), r) <==>
            AskedFor(r, user, filters, cursor)
  {
    hide Satisfies, Like.Matches;
    var status := if filters.status.Some? then [ByStatus(filters.status.value)] else [];
    var start := if filters.startDate.Some? then [Since(filters.startDate.value)] else [];
    var end := if filters.endDate.Some? then [Until(filters.endDate.value)] else [];
    var name := if filters.productName.Some? then [AnyTitleLike("%" + filters.productName.value + "%")] else [];
    assert Wanted(user, filters) == [ByUser(user)] + status + start + end + name;
    SatisfiesBoth([ByUser(user)] + status + start + end, name, r);
    SatisfiesBoth([ByUser(user)] + status + start, end, r);
    SatisfiesBoth([ByUser(user)] + status, start, r);
    SatisfiesBoth([ByUser(user)], status, r);
    OneCondition(ByUser(user), r);
    if filters.status.Some? { OneCondition(status[0], r); }
    if filters.startDate.Some? { OneCondition(start[0], r); }
    if filters.endDate.Some? { OneCondition(end[0], r); }
    if filters.productName.Some? { OneCondition(name[0], r); }
    if cursor.Some? { OneCondition(Below(cursor.value), r); }
    NoConditions(r);
  }

  lemma NoConditions(r: OrderRow)
    ensures Satisfies([], r)
  {
  }

  lemma WantedHolds(user: UserId, filters: Filters)
    ensures forall r: OrderRow :: Satisfies(Wanted(user, filters), r) <==> AskedFor(r, user, filters, None)
  {
    hide Satisfies, AskedFor, Wanted;
    assert AfterCursor(None) == [];
    forall r: OrderRow ensures Satisfies(Wanted(user, filters), r) <==> AskedFor(r, user, filters, None) {
      WantedIsAskedFor(user, filters, None, r);
      NoConditions(r);
    }
  }

  /** The rows that a request can answer are exactly the rows of the table that it asks for. */
  lemma RestHas(table: seq<OrderRow>, user: UserId, filters: Filters, cursor: Option<Cursor>, r: OrderRow)
    requires UniqueIds(table)
    ensures r in Rest(table, user, filters, cursor) <==> r in table && AskedFor(r, user, filters, cursor)
  {
    hide Select, Satisfies, Listed, Wanted, AfterCursor, AskedFor;
    SelectHas(Listing(table, user, filters), AfterCursor(cursor), r);
    SelectHas(Listed(table), Wanted(user, filters), r);
    ListedHas(table, r);
    WantedIsAskedFor(user, filters, cursor, r);
  }

  /** The whole listing: the caller's orders that meet the filters, and no others, newest first. */
  lemma ListingIff(table: seq<OrderRow>, user: UserId, filters: Filters, r: OrderRow)
    requires UniqueIds(table)
    ensures NewestFirst(Listing(table, user, filters))
    ensures r in Listing(table, user, filters) <==> r in table && AskedFor(r, user, filters, None)
  {
    hide Satisfies, Listed, Wanted, AskedFor;
    ListingDescends(table, user, filters);
    DescendingIsNewestFirst(Listing(table, user, filters));
    hide NewestFirst, Descending;
    SelectHas(Listed(table), Wanted(user, filters), r);
    ListedHas(table, r);
    WantedIsAskedFor(user, filters, None, r);
    NoConditions(r);
  }

  lemma DescendingIsNewestFirst(rows: seq<OrderRow>)
    requires Descending(rows)
    ensures NewestFirst(rows)
  {
    forall i, j | 0 <= i < j < |rows| ensures Newer(rows[i], rows[j]) {
    }
  }

  lemma RestIsNewestFirst(table: seq<OrderRow>, user: UserId, filters: Filters, cursor: Option<Cursor>)
    requires UniqueIds(table)
    ensures NewestFirst(Rest(table, user, filters, cursor))
  {
    hide Select, Listed, Wanted, AfterCursor, Descending, NewestFirst;
    ListingDescends(table, user, filters);
    SelectDescends(Listing(table, user, filters), AfterCursor(cursor));
    DescendingIsNewestFirst(Rest(table, user, filters, cursor));
  }

  /** The answer consists of rows that are asked for, newest first; when it leaves some out it is a full
      page, all of them are older, and only then there is a cursor, that of the last row. */
  ghost predicate Answers(found: Found, table: seq<OrderRow>, user: UserId, filters: Filters, cursor: Option<Cursor>,
                          limit: nat)
    requires limit >= 1
  {
    && NewestFirst(found.orders) && |found.orders| <= limit
    && (forall r :: r in found.orders ==> r in table && AskedFor(r, user, filters, cursor))
    && (forall r :: r in table && r !in found.orders && AskedFor(r, user, filters, cursor) ==>
          found.next.Some? && forall i :: 0 <= i < |found.orders| ==> NewestFirst([found.orders[i], r]))
    && (found.next.Some? ==>
          && |found.orders| == limit
          && found.next.value == Cursor(found.orders[limit - 1].createdAt / 1000, found.orders[limit - 1].id)
          && exists r :: r in table && r !in found.orders && AskedFor(r, user, filters, cursor))
  }

  lemma NotInPrefix(rows: seq<OrderRow>, limit: nat, k: nat)
    requires NewestFirst(rows) && limit <= k < |rows|
    ensures rows[k] !in rows[..limit]
  {
  }

  lemma InPrefix(rows: seq<OrderRow>, limit: nat, k: nat)
    requires k < |rows|
    ensures k < limit <= |rows| ==> rows[k] in rows[..limit]
  {
    assert k < limit <= |rows| ==> rows[..limit][k] == rows[k];
  }

  lemma FindOrdersAnswers(table: seq<OrderRow>, user: UserId, filters: Filters, cursor: Option<Cursor>, limit: nat)
    requires limit >= 1 && UniqueIds(table)
    ensures Answers(FindOrders(table, user, filters, cursor, limit), table, user, filters, cursor, limit)
  {
    hide Rest, AskedFor, UniqueIds;
    var rest, found := Rest(table, user, filters, cursor), FindOrders(table, user, filters, cursor, limit);
    RestIsNewestFirst(table, user, filters, cursor);
    forall r: OrderRow
      ensures r in rest <==> r in table && AskedFor(r, user, filters, cursor)
    {
      RestHas(table, user, filters, cursor, r);
    }
    if |rest| > limit {
      NotInPrefix(rest, limit, limit);
      assert rest[limit] in rest;
    }
    forall r | r in rest && r !in found.orders
      ensures found.next.Some? && forall i :: 0 <= i < |found.orders| ==> NewestFirst([found.orders[i], r])
    {
      var k :| 0 <= k < |rest| && rest[k] == r;
      InPrefix(rest, limit, k);
    }
  }

  method FindOrdersWithFilters(table: seq<OrderRow>, user: UserId, filters: Filters, cursor: Option<Cursor>, limit: nat)
    returns (orders: seq<OrderRow>, next: Option<Cursor>)
    requires limit >= 1 && UniqueIds(table)
    ensures Found(orders, next) == FindOrders(table, user, filters, cursor, limit)
    ensures Answers(Found(orders, next), table, user, filters, cursor, limit)
    ensures forall r :: r in orders ==> r.user == user
  {
    hide Select, Listed, Rest, Satisfies;
    FindOrdersAnswers(table, user, filters, cursor, limit);
    var subquery := BuildOrderIdsSubquery(user, filters);
    if cursor.Some? {
      ApplyCursorPagination(subquery, cursor.value);
    }
    ApplyOrderingAndLimit(subquery, limit + 1);
    FirstQuery(table, user, filters, cursor);
    assert subquery.conditions == Wanted(user, filters) + AfterCursor(cursor);
    var paginated := subquery.GetMany(table);
    ghost var rest := Rest(table, user, filters, cursor);
    assert paginated == Limited(rest, Some(limit + 1));
    if paginated == [] {
      return [], None;
    }
    var hasNextPage := |paginated| > limit;
    var pageSlice := if hasNextPage then paginated[..limit] else paginated;
    assert pageSlice == Limited(rest, Some(limit));
    SecondQuery(table, user, filters, cursor, limit);
    var mainQuery := BuildMainQuery(Ids(pageSlice));
    orders := mainQuery.GetMany(table);
    next := if hasNextPage then Some(CursorOf(pageSlice[|pageSlice| - 1])) else None;
  }

  // ---- Following the cursors

  function Key(r: OrderRow): Keyset.Row {
    Keyset.ByTime(r.createdAt, r.id, true)
  }

  function Keys(rows: seq<OrderRow>): (keys: seq<Keyset.Row>)
    ensures |keys| == |rows|
  {
    seq(|rows|, i requires 0 <= i < |rows| => Key(rows[i]))
  }

  function Stamps(rows: seq<OrderRow>): (stamps: seq<Keyset.Stamp>)
    ensures |stamps| == |rows|
  {
    seq(|rows|, i requires 0 <= i < |rows| => Keyset.Stamp(rows[i].createdAt, rows[i].id))
  }

  lemma KeysOfStamps(rows: seq<OrderRow>)
    ensures Keys(rows) == Keyset.TimeKeys(Stamps(rows), true)
  {
  }

  lemma KeysAscend(rows: seq<OrderRow>)
    requires Descending(rows)
    ensures Keyset.Ascending(Keys(rows)) && Keyset.Coarse(Keys(rows))
  {
    forall i, j | 0 <= i < j < |rows| ensures Keyset.Before(Keys(rows)[i], Keys(rows)[j]) {
      assert Newer(rows[i], rows[j]);
    }
  }

  /** `last` is the row that the cursor was built from. */
  predicate MadeFrom(cursor: Option<Cursor>, last: Option<OrderRow>) {
    if last.None? then cursor.None? else cursor == Some(CursorOf(last.value))
  }

  function KeyOf(last: Option<OrderRow>): Option<Keyset.Row> {
    if last.Some? then Some(Key(last.value)) else None
  }

  /** The SQL condition on a row is the keyset condition on its key. */
  lemma BelowIsAfter(r: OrderRow, cursor: Option<Cursor>, last: Option<OrderRow>)
    requires MadeFrom(cursor, last)
    ensures Satisfies(AfterCursor(cursor), r) <==> Keyset.Passes(KeyOf(last), Key(r))
  {
    assert cursor.Some? ==> AfterCursor(cursor)[0] == Below(cursor.value);
  }

  lemma KeysCons(r: OrderRow, rows: seq<OrderRow>)
    ensures Keys([r] + rows) == [Key(r)] + Keys(rows)
  {
  }

  lemma {:induction false} RestIsFilter(rows: seq<OrderRow>, cursor: Option<Cursor>, last: Option<OrderRow>)
    requires MadeFrom(cursor, last)
    ensures Keys(Select(rows, AfterCursor(cursor))) == Keyset.Filter(Keys(rows), KeyOf(last))
  {
    hide Satisfies, AfterCursor, MadeFrom, KeyOf, Key, Keyset.Passes, Keys;
    if rows == [] {
      NoKeys();
    } else {
      RestIsFilter(rows[1..], cursor, last);
      assert rows == [rows[0]] + rows[1..];
      KeysCons(rows[0], rows[1..]);
      SelectCons(rows[0], rows[1..], AfterCursor(cursor));
      KeysCons(rows[0], Select(rows[1..], AfterCursor(cursor)));
      assert Keys(rows)[1..] == Keys(rows[1..]);
      BelowIsAfter(rows[0], cursor, last);
    }
  }

  lemma NoKeys()
    ensures Keys([]) == []
  {
  }

  /** The orders that a client receives by following `nextCursor` from `cursor` until it is null;
      `last` is the order that the cursor came from. */
  function Received(table: seq<OrderRow>, user: UserId, filters: Filters, cursor: Option<Cursor>,
                    last: Option<OrderRow>, limit: nat)
    : seq<OrderRow>
    requires limit >= 1 && UniqueIds(table) && MadeFrom(cursor, last)
    decreases |Rest(table, user, filters, cursor)|
  {
    var found := FindOrders(table, user, filters, cursor, limit);
    if found.next.None? then found.orders
    else
      RequestsEnd(table, user, filters, cursor, last, limit);
      found.orders + Received(table, user, filters, found.next, Some(found.orders[limit - 1]), limit)
  }

  lemma ListingDescends(table: seq<OrderRow>, user: UserId, filters: Filters)
    requires UniqueIds(table)
    ensures Descending(Listing(table, user, filters))
  {
    ListedSorts(table);
    SelectDescends(Listed(table), Wanted(user, filters));
  }

  /** Every request with a next cursor leaves fewer orders for the following ones, whatever the timestamps. */
  lemma RequestsEnd(table: seq<OrderRow>, user: UserId, filters: Filters, cursor: Option<Cursor>,
                    last: Option<OrderRow>, limit: nat)
    requires limit >= 1 && UniqueIds(table) && MadeFrom(cursor, last)
    requires FindOrders(table, user, filters, cursor, limit).next.Some?
    ensures |Rest(table, user, filters, FindOrders(table, user, filters, cursor, limit).next)|
          < |Rest(table, user, filters, cursor)|
  {
    hide Select, Listed, Wanted, AfterCursor, Keyset.Filter, Listing;
    var listing, found := Listing(table, user, filters), FindOrders(table, user, filters, cursor, limit);
    ListingDescends(table, user, filters);
    KeysAscend(listing);
    RestIsFilter(listing, cursor, last);
    RestIsFilter(listing, found.next, Some(found.orders[limit - 1]));
    Keyset.PagesShrink(Keys(listing), KeyOf(last), limit);
  }

  lemma {:induction false} ReceivedIsWalk(table: seq<OrderRow>, user: UserId, filters: Filters, cursor: Option<Cursor>,
                                         last: Option<OrderRow>, limit: nat)
    requires limit >= 1 && UniqueIds(table) && MadeFrom(cursor, last)
    ensures Keyset.Coarse(Keys(Listing(table, user, filters)))
    ensures Keys(Received(table, user, filters, cursor, last, limit))
         == Keyset.Walk(Keys(Listing(table, user, filters)), KeyOf(last), limit)
    decreases |Rest(table, user, filters, cursor)|
  {
    hide Select, Listed, Wanted, AfterCursor, Keyset.Filter, Listing, Keyset.Coarse, UniqueIds;
    var listing, found := Listing(table, user, filters), FindOrders(table, user, filters, cursor, limit);
    ListingDescends(table, user, filters);
    KeysAscend(listing);
    RestIsFilter(listing, cursor, last);
    var rest := Rest(table, user, filters, cursor);
    if found.next.Some? {
      var l := found.orders[limit - 1];
      RequestsEnd(table, user, filters, cursor, last, limit);
      ReceivedIsWalk(table, user, filters, found.next, Some(l), limit);
      assert Keys(rest[..limit]) == Keys(rest)[..limit];
      var later := Received(table, user, filters, found.next, Some(l), limit);
      assert Keys(found.orders + later) == Keys(found.orders) + Keys(later);
    }
  }

  lemma {:induction false} ReceivedAreListed(table: seq<OrderRow>, user: UserId, filters: Filters,
                                             cursor: Option<Cursor>, last: Option<OrderRow>, limit: nat)
    requires limit >= 1 && UniqueIds(table) && MadeFrom(cursor, last)
    ensures forall r :: r in Received(table, user, filters, cursor, last, limit) ==> r in Listing(table, user, filters)
    decreases |Rest(table, user, filters, cursor)|
  {
    hide Listing, UniqueIds, AfterCursor, Satisfies;
    var found := FindOrders(table, user, filters, cursor, limit);
    if found.next.Some? {
      RequestsEnd(table, user, filters, cursor, last, limit);
      ReceivedAreListed(table, user, filters, found.next, Some(found.orders[limit - 1]), limit);
    }
  }

  /** Ids are unique, so rows of one listing are determined by their keys. */
  lemma KeysDetermineRows(listing: seq<OrderRow>, a: seq<OrderRow>)
    requires UniqueIds(listing) && Keys(a) == Keys(listing) && forall r :: r in a ==> r in listing
    ensures a == listing
  {
    assert |a| == |Keys(a)| == |listing|;
    forall i | 0 <= i < |a| ensures a[i] == listing[i] {
      assert Keys(a)[i] == Keys(listing)[i];
      assert a[i].id == listing[i].id;
      assert a[i] in a;
    }
  }

  lemma ListingUnique(table: seq<OrderRow>, user: UserId, filters: Filters)
    requires UniqueIds(table)
    ensures UniqueIds(Listing(table, user, filters))
  {
    ListedUniqueIds(table);
    SelectKeepsUnique(Listed(table), Wanted(user, filters));
  }

  lemma {:induction false} SelectKeepsUnique(rows: seq<OrderRow>, conditions: seq<Condition>)
    requires UniqueIds(rows)
    ensures UniqueIds(Select(rows, conditions))
  {
    hide Satisfies;
    if rows != [] {
      SelectKeepsUnique(rows[1..], conditions);
      assert forall r :: r in rows[1..] ==> r.id != rows[0].id;
    }
  }

  lemma ReceivedIff(table: seq<OrderRow>, user: UserId, filters: Filters, limit: nat)
    requires UniqueIds(table) && limit >= 1
    ensures Keyset.Coarse(Keys(Listing(table, user, filters)))
    ensures Received(table, user, filters, None, None, limit) == Listing(table, user, filters) <==>
            Keyset.Walk(Keys(Listing(table, user, filters)), None, limit) == Keys(Listing(table, user, filters))
  {
    hide Listing, UniqueIds, Received, Keys, Keyset.Walk, Keyset.Coarse;
    var listing, received := Listing(table, user, filters), Received(table, user, filters, None, None, limit);
    ReceivedIsWalk(table, user, filters, None, None, limit);
    if Keys(received) == Keys(listing) {
      ListingUnique(table, user, filters);
      ReceivedAreListed(table, user, filters, None, None, limit);
      KeysDetermineRows(listing, received);
    }
  }

  /** For every accepted page size the client receives all matching orders exactly once and newest
      first, exactly when within each millisecond ids descend with the listing. */
  lemma OrdersExactlyOnceIff(table: seq<OrderRow>, user: UserId, filters: Filters)
    requires UniqueIds(table)
    ensures Keyset.IdsFollow(Stamps(Listing(table, user, filters)), true) <==>
            (forall limit: nat :: 1 <= limit <= Keyset.MAX_ORDERS_LIMIT ==>
               Received(table, user, filters, None, None, limit) == Listing(table, user, filters))
    ensures Keyset.SharedTimestamps(Stamps(Listing(table, user, filters))) ==>
              Keyset.IdsFollow(Stamps(Listing(table, user, filters)), true)
  {
    hide Listing, UniqueIds, Received, Keys, Keyset.Walk, Keyset.IdsFollow, Keyset.SharedTimestamps, Keyset.Consistent,
         Keyset.Ascending, Keyset.Coarse;
    var listing := Listing(table, user, filters);
    var keys := Keyset.TimeKeys(Stamps(listing), true);
    ListingDescends(table, user, filters);
    KeysAscend(listing);
    KeysOfStamps(listing);
    Keyset.TimeConsistentIff(Stamps(listing), true);
    Keyset.ExactlyOnceIff(keys, Keyset.MAX_ORDERS_LIMIT);
    if Keyset.ExactlyOnce(keys, Keyset.MAX_ORDERS_LIMIT) {
      forall limit: nat | 1 <= limit <= Keyset.MAX_ORDERS_LIMIT
        ensures Received(table, user, filters, None, None, limit) == listing
      {
        ReceivedIff(table, user, filters, limit);
      }
    } else {
      var limit: nat :| 1 <= limit <= Keyset.MAX_ORDERS_LIMIT && Keyset.Walk(keys, None, limit) != keys;
      ReceivedIff(table, user, filters, limit);
    }
  }
}
