/** Stock arithmetic of the order transactions, on product rows and on the
    in-memory product entities that a transaction works with. */
module Stock {
  import opened Common

  type ProductId = nat

  datatype Item = Item(product: ProductId, quantity: int)

  /** A row of the products table; `price` is in cents. */
  datatype Row = Row(stock: int, active: bool, deleted: bool, price: nat)

  type Table = map<ProductId, Row>

  datatype StockError =
    | NotFound(product: ProductId)
    | Inactive(product: ProductId)
    | Insufficient(product: ProductId)

  const MAX_ORDER_QUANTITY := 1000

  /** The total quantity that `items` ask of product `p`. */
  function Quantity(items: seq<Item>, p: ProductId): int {
    if items == [] then 0
    else
      var last := items[|items| - 1];
      Quantity(items[..|items| - 1], p) + if last.product == p then last.quantity else 0
  }

  lemma QuantitySnoc(items: seq<Item>, k: nat, p: ProductId)
    requires k < |items|
    ensures Quantity(items[..k + 1], p)
         == Quantity(items[..k], p) + if items[k].product == p then items[k].quantity else 0
  {
    assert items[..k + 1][..k] == items[..k];
  }

  ghost predicate Mentions(items: seq<Item>, p: ProductId) {
    exists i :: 0 <= i < |items| && items[i].product == p
  }

  lemma {:induction false} QuantityUnmentioned(items: seq<Item>, p: ProductId)
    requires !Mentions(items, p)
    ensures Quantity(items, p) == 0
  {
    if items != [] {
      var front := items[..|items| - 1];
      assert items[|items| - 1].product != p;
      assert forall i :: 0 <= i < |front| ==> front[i] == items[i];
      QuantityUnmentioned(front, p);
    }
  }

  predicate ValidQuantities(items: seq<Item>) {
    forall i :: 0 <= i < |items| ==> 1 <= items[i].quantity <= MAX_ORDER_QUANTITY
  }

  /** A mentioned product is asked for in a positive quantity, an unmentioned one in none. */
  lemma {:induction false} QuantitySign(items: seq<Item>, p: ProductId)
    requires ValidQuantities(items)
    ensures Quantity(items, p) >= 0
    ensures Quantity(items, p) > 0 <==> Mentions(items, p)
  {
    if items != [] {
      var front, last := items[..|items| - 1], items[|items| - 1];
      QuantitySign(front, p);
      if Mentions(front, p) {
        var i :| 0 <= i < |front| && front[i].product == p;
        assert items[i].product == p;
      } else {
        assert forall i :: 0 <= i < |front| ==> front[i] == items[i];
      }
    }
  }

  predicate DistinctProducts(items: seq<Item>) {
    forall i, j :: 0 <= i < j < |items| ==> items[i].product != items[j].product
  }

  lemma {:induction false} QuantityDistinct(items: seq<Item>, k: nat)
    requires k < |items| && DistinctProducts(items)
    ensures Quantity(items, items[k].product) == items[k].quantity
  {
    var n := |items| - 1;
    var front, p := items[..n], items[k].product;
    if k == n {
      assert forall i :: 0 <= i < |front| ==> front[i] == items[i];
      QuantityUnmentioned(front, p);
    } else {
      QuantityDistinct(front, k);
    }
  }

  function ProductIds(items: seq<Item>): set<ProductId> {
    set i | 0 <= i < |items| :: items[i].product
  }

  /** The rows a `SELECT ... FOR UPDATE` returns: soft-deleted rows are filtered out. */
  function LockedRows(table: Table, ids: set<ProductId>): Table {
    map p | p in ids && p in table && !table[p].deleted :: table[p]
  }

  /** The exception, if any, that one line of an order raises against the locked rows. */
  function Rejection(item: Item, rows: Table): Option<StockError> {
    if item.product !in rows then Some(NotFound(item.product))
    else if !rows[item.product].active then Some(Inactive(item.product))
    else if rows[item.product].stock < item.quantity then Some(Insufficient(item.product))
    else None
  }

  /** The exception of the first line that raises one. */
  function FirstRejection(items: seq<Item>, rows: Table): (r: Option<StockError>)
    ensures r.None? <==> forall i :: 0 <= i < |items| ==> Rejection(items[i], rows).None?
    ensures r.Some? ==>
              exists i :: && 0 <= i < |items| && Rejection(items[i], rows) == r
                          && forall j :: 0 <= j < i ==> Rejection(items[j], rows).None?
    decreases |items|
  {
    if items == [] then None
    else
      var front := items[..|items| - 1];
      var early := FirstRejection(front, rows);
      if early.Some? then
        assert forall i :: 0 <= i < |front| ==> front[i] == items[i];
        early
      else
        assert forall i :: 0 <= i < |front| ==> Rejection(items[i], rows) == Rejection(front[i], rows);
        Rejection(items[|items| - 1], rows)
  }

  /** Which exception a line raises, by the columns of its product. */
  lemma RejectionIs(item: Item, products: Table, ids: set<ProductId>)
    requires item.product in ids
    ensures var r, p := Rejection(item, LockedRows(products, ids)), item.product;
            && (r == Some(NotFound(p)) <==> p !in products || products[p].deleted)
            && (r == Some(Inactive(p)) <==> p in products && !products[p].deleted && !products[p].active)
            && (r == Some(Insufficient(p)) <==>
                p in products && !products[p].deleted && products[p].active && products[p].stock < item.quantity)
            && (r == None <==>
                p in products && !products[p].deleted && products[p].active && item.quantity <= products[p].stock)
  {
  }

  /** Every line names a live, active product with enough stock. */
  predicate InStock(items: seq<Item>, products: Table) {
    forall i :: 0 <= i < |items| ==>
      && items[i].product in products
      && !products[items[i].product].deleted && products[items[i].product].active
      && items[i].quantity <= products[items[i].product].stock
  }

  lemma InStockIff(items: seq<Item>, products: Table)
    ensures InStock(items, products) <==> FirstRejection(items, LockedRows(products, ProductIds(items))).None?
  {
    var rows := LockedRows(products, ProductIds(items));
    if FirstRejection(items, rows).None? {
      assert forall i :: 0 <= i < |items| ==> Rejection(items[i], rows).None?;
    }
    if InStock(items, products) {
      assert forall i :: 0 <= i < |items| ==> Rejection(items[i], rows).None?;
    }
  }

  /** The table after a committed order: every line taken from its row. */
  function Taken(table: Table, items: seq<Item>): Table {
    map p | p in table ::
      if table[p].deleted then table[p] else table[p].(stock := table[p].stock - Quantity(items, p))
  }

  /** The table after a committed cancellation: every line given back, except to deleted rows. */
  function GivenBack(table: Table, items: seq<Item>): Table {
    map p | p in table ::
      if table[p].deleted then table[p] else table[p].(stock := table[p].stock + Quantity(items, p))
  }

  /** Saving only the locked rows is enough: no other live row is mentioned. */
  lemma SavingLockedRows(table: Table, items: seq<Item>)
    ensures var rows := LockedRows(table, ProductIds(items));
            && Taken(table, items) == (map p | p in table ::
                 if p in rows then table[p].(stock := table[p].stock - Quantity(items, p)) else table[p])
            && GivenBack(table, items) == (map p | p in table ::
                 if p in rows then table[p].(stock := table[p].stock + Quantity(items, p)) else table[p])
  {
    forall p | p in table && p !in ProductIds(items) ensures Quantity(items, p) == 0 {
      assert !Mentions(items, p);
      QuantityUnmentioned(items, p);
    }
  }

  /** Rows that are not for sale are not asked for, so taking leaves them alone. */
  lemma TakenRows(items: seq<Item>, products: Table)
    requires InStock(items, products)
    ensures Taken(products, items).Keys == products.Keys
    ensures forall p :: p in products ==>
              Taken(products, items)[p] == products[p].(stock := products[p].stock - Quantity(items, p))
  {
    forall p | p in products && products[p].deleted ensures Quantity(items, p) == 0 {
      assert !Mentions(items, p);
      QuantityUnmentioned(items, p);
    }
  }

  /** A cancellation gives back to every row that is not deleted, and leaves the others alone. */
  lemma GivenBackRows(items: seq<Item>, products: Table)
    ensures GivenBack(products, items).Keys == products.Keys
    ensures forall p :: p in products ==>
              GivenBack(products, items)[p]
              == if products[p].deleted then products[p]
                 else products[p].(stock := products[p].stock + Quantity(items, p))
  {
  }

  ghost predicate NonNegative(table: Table) {
    forall p :: p in table ==> table[p].stock >= 0
  }

  /** An accepted order leaves no negative stock exactly when every product's total fits. */
  lemma TakenNonNegativeIff(table: Table, items: seq<Item>)
    requires NonNegative(table)
    requires FirstRejection(items, LockedRows(table, ProductIds(items))).None?
    ensures NonNegative(Taken(table, items))
       <==> forall p :: p in ProductIds(items) ==> Quantity(items, p) <= table[p].stock
  {
    var rows := LockedRows(table, ProductIds(items));
    forall i | 0 <= i < |items|
      ensures items[i].product in table && !table[items[i].product].deleted
    {
      assert Rejection(items[i], rows).None?;
    }
    forall p | p in table
      ensures p !in ProductIds(items) ==> Taken(table, items)[p] == table[p]
    {
      if p !in ProductIds(items) {
        assert !Mentions(items, p);
        QuantityUnmentioned(items, p);
      }
    }
    if NonNegative(Taken(table, items)) {
      forall p | p in ProductIds(items) ensures Quantity(items, p) <= table[p].stock {
        assert Taken(table, items)[p].stock >= 0;
      }
    }
  }

  /** Pairwise distinct products are enough: the per-line check is then the per-product check. */
  lemma DistinctNeverOverdraws(table: Table, items: seq<Item>)
    requires NonNegative(table) && DistinctProducts(items)
    requires FirstRejection(items, LockedRows(table, ProductIds(items))).None?
    ensures NonNegative(Taken(table, items))
  {
    forall p | p in ProductIds(items) ensures p in table && Quantity(items, p) <= table[p].stock {
      var i :| 0 <= i < |items| && items[i].product == p;
      QuantityDistinct(items, i);
      assert Rejection(items[i], LockedRows(table, ProductIds(items))).None?;
    }
    TakenNonNegativeIff(table, items);
  }

  /** Two lines for one product pass the per-line check and overdraw the row. */
  lemma RepeatedProductOverdraws()
    ensures var table: Table := map[7 := Row(5, true, false, 100)];
            var items := [Item(7, 4), Item(7, 4)];
            && NonNegative(table) && ValidQuantities(items)
            && FirstRejection(items, LockedRows(table, ProductIds(items))).None?
            && Taken(table, items)[7].stock == -3
  {
    var table: Table := map[7 := Row(5, true, false, 100)];
    var items := [Item(7, 4), Item(7, 4)];
    assert items[0].product == 7;
    assert 7 in ProductIds(items);
    var rows := LockedRows(table, ProductIds(items));
    assert forall i :: 0 <= i < |items| ==> Rejection(items[i], rows).None?;
    assert items[..1] == [Item(7, 4)];
    assert Quantity(items[..1], 7) == 4;
    assert Quantity(items, 7) == 8;
  }

  lemma GivenBackNonNegative(table: Table, items: seq<Item>)
    requires NonNegative(table) && ValidQuantities(items)
    ensures NonNegative(GivenBack(table, items))
  {
    forall p | p in table ensures GivenBack(table, items)[p].stock >= 0 {
      QuantitySign(items, p);
    }
  }

  /** The mutable product entity that `getMany` hydrates and `save` writes back. */
  class Product {
    const id: ProductId
    const active: bool
    const price: nat
    var stock: int

    constructor (id: ProductId, row: Row)
      ensures this.id == id && this.active == row.active && this.price == row.price && stock == row.stock
    {
      this.id, this.active, this.price, this.stock := id, row.active, row.price, row.stock;
    }
  }

  /** A product map as the services build it: keyed by the entity's own id. */
  predicate Indexed(products: map<ProductId, Product>) {
    forall p :: p in products ==> products[p].id == p
  }

  /** The entities hold exactly the columns of `rows`. */
  ghost predicate Mirrors(products: map<ProductId, Product>, rows: Table)
    reads products.Values
  {
    && products.Keys == rows.Keys
    && (forall p :: p in products ==> products[p].stock == rows[p].stock)
    && (forall p :: p in products ==> products[p].active == rows[p].active)
    && (forall p :: p in products ==> products[p].price == rows[p].price)
  }

  /** order-stock.service.ts: throws for the first line that is missing, inactive or short. */
  method ValidateStockAndAvailability(items: seq<Item>, products: map<ProductId, Product>, ghost rows: Table)
    returns (r: Option<StockError>)
    requires Mirrors(products, rows)
    ensures r == FirstRejection(items, rows)
  {
    for i := 0 to |items|
      invariant FirstRejection(items[..i], rows).None?
    {
      var item := items[i];
      assert items[..i + 1][..i] == items[..i] && items[..i + 1][i] == item;
      ghost var upTo := items[..i + 1];
      if item.product !in products {
        r := Some(NotFound(item.product));
      } else if !products[item.product].active {
        r := Some(Inactive(item.product));
      } else if products[item.product].stock < item.quantity {
        r := Some(Insufficient(item.product));
      } else {
        r := None;
      }
      assert r == Rejection(item, rows) == FirstRejection(upTo, rows);
      if r.Some? {
        PrefixRejects(items, i + 1, rows);
        return;
      }
    }
    assert items[..|items|] == items;
    r := None;
  }

  /** A rejection found in a prefix is the rejection of the whole list. */
  lemma {:induction false} PrefixRejects(items: seq<Item>, k: nat, rows: Table)
    requires k <= |items| && FirstRejection(items[..k], rows).Some?
    ensures FirstRejection(items, rows) == FirstRejection(items[..k], rows)
    decreases |items|
  {
    if k == |items| {
      assert items[..k] == items;
    } else {
      var front := items[..|items| - 1];
      assert front[..k] == items[..k];
      PrefixRejects(front, k, rows);
    }
  }

  /** order-stock.service.ts: `product.stock -= item.quantity`, line by line, in memory. */
  method DecrementStock(items: seq<Item>, products: map<ProductId, Product>)
    requires Indexed(products)
    requires forall i :: 0 <= i < |items| ==> items[i].product in products
    modifies products.Values
    ensures forall p :: p in products ==> products[p].stock == old(products[p].stock) - Quantity(items, p)
  {
    for i := 0 to |items|
      invariant forall p :: p in products ==> products[p].stock == old(products[p].stock) - Quantity(items[..i], p)
    {
      var product := products[items[i].product];
      product.stock := product.stock - items[i].quantity;
      forall p | p in products
        ensures products[p].stock == old(products[p].stock) - Quantity(items[..i + 1], p)
      {
        QuantitySnoc(items, i, p);
        assert products[p].id == p && product.id == items[i].product;
      }
    }
    assert items[..|items|] == items;
  }

  /** order-stock.service.ts: `product.stock += item.quantity`; absent products are skipped. */
  method RestoreStock(items: seq<Item>, products: map<ProductId, Product>)
    requires Indexed(products)
    modifies products.Values
    ensures forall p :: p in products ==> products[p].stock == old(products[p].stock) + Quantity(items, p)
  {
    for i := 0 to |items|
      invariant forall p :: p in products ==> products[p].stock == old(products[p].stock) + Quantity(items[..i], p)
    {
      if items[i].product in products {
        var product := products[items[i].product];
        product.stock := product.stock + items[i].quantity;
      }
      forall p | p in products
        ensures products[p].stock == old(products[p].stock) + Quantity(items[..i + 1], p)
      {
        QuantitySnoc(items, i, p);
        assert products[p].id == p;
        assert items[i].product in products ==> products[items[i].product].id == items[i].product;
      }
    }
    assert items[..|items|] == items;
  }
}
