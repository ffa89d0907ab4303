/** GraphQL batch loaders: one query for a whole list of keys, then an answer per key. */
module Loaders {
  import opened Common

  type Key = nat

  /** An entity and the value of the column that the loader groups by. */
  datatype Entity = Entity(key: Key, id: nat)

  /** The simple query for one key. */
  function WhereKey(rows: seq<Entity>, key: Key): seq<Entity> {
    if rows == [] then []
    else WhereKey(rows[..|rows| - 1], key) + if rows[|rows| - 1].key == key then [rows[|rows| - 1]] else []
  }

  /** The one query of a batch: `WHERE key IN (:...keys)`. */
  function WhereIn(rows: seq<Entity>, keys: seq<Key>): seq<Entity> {
    if rows == [] then []
    else WhereIn(rows[..|rows| - 1], keys) + if rows[|rows| - 1].key in keys then [rows[|rows| - 1]] else []
  }

  lemma WhereKeySnoc(rows: seq<Entity>, k: nat, key: Key)
    requires k < |rows|
    ensures WhereKey(rows[..k + 1], key) == WhereKey(rows[..k], key) + if rows[k].key == key then [rows[k]] else []
  {
    assert rows[..k + 1][..k] == rows[..k];
  }

  lemma WhereKeyAppend(rows: seq<Entity>, x: Entity, key: Key)
    ensures WhereKey(rows + [x], key) == WhereKey(rows, key) + if x.key == key then [x] else []
  {
    assert (rows + [x])[..|rows|] == rows;
  }

  /** The rows of one key are exactly the rows of the table with that key, as often as the table has them. */
  lemma {:induction false} WhereKeyRows(rows: seq<Entity>, key: Key, x: Entity)
    ensures multiset(WhereKey(rows, key))[x] == if x.key == key then multiset(rows)[x] else 0
  {
    if rows != [] {
      WhereKeyRows(rows[..|rows| - 1], key, x);
      assert rows == rows[..|rows| - 1] + [rows[|rows| - 1]];
    }
  }

  /** They come in table order: row i stands behind the rows of its key that precede it in the table. */
  lemma {:induction false} WhereKeyOrder(rows: seq<Entity>, i: nat)
    requires i < |rows|
    ensures var place := |WhereKey(rows[..i], rows[i].key)|;
            place < |WhereKey(rows, rows[i].key)| && WhereKey(rows, rows[i].key)[place] == rows[i]
  {
    var front := rows[..|rows| - 1];
    if i < |front| {
      assert front[..i] == rows[..i];
      WhereKeyOrder(front, i);
    } else {
      assert rows[..i] == front;
    }
  }

  /** Among the fetched rows, those of one key are the rows of the simple query. */
  lemma {:induction false} BatchHasRows(table: seq<Entity>, keys: seq<Key>, key: Key)
    requires key in keys
    ensures WhereKey(WhereIn(table, keys), key) == WhereKey(table, key)
  {
    if table != [] {
      var front, last := table[..|table| - 1], table[|table| - 1];
      BatchHasRows(front, keys, key);
      if last.key in keys {
        WhereKeyAppend(WhereIn(front, keys), last, key);
      } else {
        assert WhereIn(front, keys) + [] == WhereIn(front, keys);
      }
    }
  }

  /** `groups.get(key) ?? []` */
  function Group(groups: map<Key, seq<Entity>>, key: Key): seq<Entity> {
    if key in groups then groups[key] else []
  }

  ghost predicate Grouped(groups: map<Key, seq<Entity>>, rows: seq<Entity>) {
    forall k :: Group(groups, k) == WhereKey(rows, k)
  }

  lemma GroupOneMore(groups: map<Key, seq<Entity>>, rows: seq<Entity>, i: nat)
    requires i < |rows| && Grouped(groups, rows[..i])
    ensures Grouped(groups[rows[i].key := Group(groups, rows[i].key) + [rows[i]]], rows[..i + 1])
  {
    var x := rows[i];
    var later := groups[x.key := Group(groups, x.key) + [x]];
    forall k ensures Group(later, k) == WhereKey(rows[..i + 1], k) {
      hide WhereKey;
      WhereKeySnoc(rows, i, k);
      assert Group(groups, k) == WhereKey(rows[..i], k);
    }
  }

  /** `forEach` with a Map of arrays: `set(key, [...existing, item])`. */
  method GroupByKey(rows: seq<Entity>) returns (groups: map<Key, seq<Entity>>)
    ensures Grouped(groups, rows)
  {
    groups := map[];
    for i := 0 to |rows|
      invariant Grouped(groups, rows[..i])
    {
      hide Grouped;
      GroupOneMore(groups, rows, i);
      var existing := Group(groups, rows[i].key);
      groups := groups[rows[i].key := existing + [rows[i]]];
    }
    assert rows[..|rows|] == rows;
  }

  /** `byOrderId`, `byProductId` and `byUserId`: one answer per requested key, in key order, each the
      rows of that key in table order; keys may repeat. */
  method LoadGroups(table: seq<Entity>, keys: seq<Key>) returns (r: seq<seq<Entity>>)
    ensures |r| == |keys|
    ensures forall i :: 0 <= i < |keys| ==> r[i] == WhereKey(table, keys[i])
  {
    var rows := WhereIn(table, keys);
    var groups := GroupByKey(rows);
    r := seq(|keys|, i requires 0 <= i < |keys| => Group(groups, keys[i]));
    forall i | 0 <= i < |keys| ensures r[i] == WhereKey(table, keys[i]) {
      BatchHasRows(table, keys, keys[i]);
    }
  }

  // ---- byId

  /** `new Map(orders.map((order) => [order.id, order]))` */
  function MapById(rows: seq<Entity>): (m: map<Key, Entity>)
    ensures forall k :: k in m <==> exists i :: 0 <= i < |rows| && rows[i].key == k
    ensures forall k :: k in m ==> m[k] in rows && m[k].key == k
  {
    if rows == [] then map[]
    else
      var front, last := rows[..|rows| - 1], rows[|rows| - 1];
      var m := MapById(front);
      assert forall k :: k in m ==> exists i :: 0 <= i < |rows| && rows[i].key == k by {
        forall k | k in m ensures exists i :: 0 <= i < |rows| && rows[i].key == k {
          var i :| 0 <= i < |front| && front[i].key == k;
          assert rows[i].key == k;
        }
      }
      assert forall i :: 0 <= i < |front| ==> rows[i] == front[i];
      m[last.key := last]
  }

  function LoadById(table: seq<Entity>, ids: seq<Key>): (r: seq<Option<Entity>>)
    ensures |r| == |ids|
  {
    if ids == [] then []
    else
      var m := MapById(WhereIn(table, ids));
      seq(|ids|, i requires 0 <= i < |ids| => if ids[i] in m then Some(m[ids[i]]) else None)
  }

  predicate UniqueKeys(rows: seq<Entity>) {
    forall i, j :: 0 <= i < j < |rows| ==> rows[i].key != rows[j].key
  }

  lemma {:induction false} WhereInHas(rows: seq<Entity>, keys: seq<Key>, x: Entity)
    ensures x in WhereIn(rows, keys) <==> x in rows && x.key in keys
  {
    if rows != [] {
      WhereInHas(rows[..|rows| - 1], keys, x);
      assert rows == rows[..|rows| - 1] + [rows[|rows| - 1]];
    }
  }

  /** Per requested id, in order and with repeats: the order with that primary key, or null. */
  lemma LoadByIdFinds(table: seq<Entity>, ids: seq<Key>, i: nat)
    requires UniqueKeys(table) && i < |ids|
    ensures var r := LoadById(table, ids)[i];
            && (r.None? <==> forall j :: 0 <= j < |table| ==> table[j].key != ids[i])
            && (forall j :: 0 <= j < |table| && table[j].key == ids[i] ==> r == Some(table[j]))
  {
    var rows := WhereIn(table, ids);
    var m := MapById(rows);
    forall j | 0 <= j < |table| && table[j].key == ids[i] ensures ids[i] in m && m[ids[i]] == table[j] {
      WhereInHas(table, ids, table[j]);
      var k :| 0 <= k < |rows| && rows[k] == table[j];
      assert rows[k].key == ids[i];
      WhereInHas(table, ids, m[ids[i]]);
    }
    if ids[i] in m {
      WhereInHas(table, ids, m[ids[i]]);
    }
  }
}
