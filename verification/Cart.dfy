/** Shopping carts: rows that are upserted, saved and removed, and the checkout that turns a cart
    into an order request. */
module Cart {
  import opened Common
  import opened Stock
  import opened Protocol
  import opened Ledger
  import opened ShopService

  type RowId = nat

  /** A row of cart_items; a user has one cart, so the user stands for it. */
  datatype CartRow = CartRow(id: RowId, user: UserId, product: ProductId, quantity: int)

  /** Single writes to cart_items; whatever was read before them may be out of date. */
  datatype Write =
    | Upsert(id: RowId, user: UserId, product: ProductId, quantity: int)
    | Save(row: CartRow)
    | Remove(ids: set<RowId>)

  predicate SameSlot(a: CartRow, user: UserId, product: ProductId) {
    a.user == user && a.product == product
  }

  /** The unique index on (cart_id, product_id). */
  predicate UniqueSlots(rows: seq<CartRow>) {
    forall i, j :: 0 <= i < j < |rows| ==> !SameSlot(rows[i], rows[j].user, rows[j].product)
  }

  predicate UniqueRowIds(rows: seq<CartRow>) {
    forall i, j :: 0 <= i < j < |rows| ==> rows[i].id != rows[j].id
  }

  function FindSlot(rows: seq<CartRow>, user: UserId, product: ProductId): (r: Option<nat>)
    ensures r.Some? ==> r.value < |rows| && SameSlot(rows[r.value], user, product)
    ensures r.None? ==> forall i :: 0 <= i < |rows| ==> !SameSlot(rows[i], user, product)
  {
    if rows == [] then None
    else if SameSlot(rows[|rows| - 1], user, product) then Some(|rows| - 1)
    else FindSlot(rows[..|rows| - 1], user, product)
  }

  function FindId(rows: seq<CartRow>, id: RowId): (r: Option<nat>)
    ensures r.Some? ==> r.value < |rows| && rows[r.value].id == id
    ensures r.None? ==> forall i :: 0 <= i < |rows| ==> rows[i].id != id
  {
    if rows == [] then None
    else if rows[|rows| - 1].id == id then Some(|rows| - 1)
    else FindId(rows[..|rows| - 1], id)
  }

  function Without(rows: seq<CartRow>, ids: set<RowId>): seq<CartRow> {
    if rows == [] then []
    else Without(rows[..|rows| - 1], ids) + if rows[|rows| - 1].id in ids then [] else [rows[|rows| - 1]]
  }

  /** `INSERT ... ON CONFLICT (cart_id, product_id) DO UPDATE`; `save`, which inserts the row again
      when it has been removed meanwhile and then may violate the index; and `remove`. */
  function Apply(rows: seq<CartRow>, w: Write): seq<CartRow> {
    match w
    case Upsert(id, user, product, quantity) =>
      var at := FindSlot(rows, user, product);
      if at.Some? then rows[at.value := rows[at.value].(quantity := quantity)]
      else if FindId(rows, id).Some? then rows
      else rows + [CartRow(id, user, product, quantity)]
    case Save(row) =>
      var at := FindId(rows, row.id);
      if at.Some? then rows[at.value := rows[at.value].(quantity := row.quantity)]
      else if FindSlot(rows, row.user, row.product).Some? then rows
      else rows + [row]
    case Remove(ids) => Without(rows, ids)
  }

  /** A saved row: its quantity is written, also after somebody has removed the row, unless its product has
      got another row meanwhile. */
  lemma SavedRow(rows: seq<CartRow>, row: CartRow)
    requires UniqueRowIds(rows)
    requires forall i :: 0 <= i < |rows| && rows[i].id == row.id ==> SameSlot(rows[i], row.user, row.product)
    ensures (exists i :: 0 <= i < |rows| && rows[i].id == row.id) ==> row in Apply(rows, Save(row))
    ensures (forall i :: 0 <= i < |rows| ==> rows[i].id != row.id && !SameSlot(rows[i], row.user, row.product)) ==>
              Apply(rows, Save(row)) == rows + [row]
    ensures forall r :: r in rows && r.id != row.id ==> r in Apply(rows, Save(row))
  {
    var at, later := FindId(rows, row.id), Apply(rows, Save(row));
    if at.Some? {
      assert later[at.value] == row;
    }
    forall r | r in rows && r.id != row.id ensures r in later {
      var i :| 0 <= i < |rows| && rows[i] == r;
      assert later[i] == r;
    }
  }

  function Replay(rows: seq<CartRow>, ws: seq<Write>): seq<CartRow>
    decreases |ws|
  {
    if ws == [] then rows else Replay(Apply(rows, ws[0]), ws[1..])
  }

  lemma {:induction false} WithoutKeeps(rows: seq<CartRow>, ids: set<RowId>)
    requires UniqueSlots(rows) && UniqueRowIds(rows)
    ensures UniqueSlots(Without(rows, ids)) && UniqueRowIds(Without(rows, ids))
    ensures forall r :: r in Without(rows, ids) <==> r in rows && r.id !in ids
  {
    if rows != [] {
      var front, last := rows[..|rows| - 1], rows[|rows| - 1];
      WithoutKeeps(front, ids);
      assert rows == front + [last];
      assert forall r :: r in front ==> !SameSlot(r, last.user, last.product) && r.id != last.id;
    }
  }

  lemma ApplyKeeps(rows: seq<CartRow>, w: Write)
    requires UniqueSlots(rows) && UniqueRowIds(rows)
    ensures UniqueSlots(Apply(rows, w)) && UniqueRowIds(Apply(rows, w))
  {
    if w.Remove? {
      WithoutKeeps(rows, w.ids);
    }
  }

  lemma {:induction false} ReplayKeeps(rows: seq<CartRow>, ws: seq<Write>)
    requires UniqueSlots(rows) && UniqueRowIds(rows)
    ensures UniqueSlots(Replay(rows, ws)) && UniqueRowIds(Replay(rows, ws))
    decreases |ws|
  {
    hide UniqueSlots, UniqueRowIds, Apply;
    if ws != [] {
      ApplyKeeps(rows, ws[0]);
      ReplayKeeps(Apply(rows, ws[0]), ws[1..]);
    }
  }

  /** How many pieces of a product the user has in the cart. */
  function InCart(rows: seq<CartRow>, user: UserId, product: ProductId): int {
    if rows == [] then 0
    else
      var last := rows[|rows| - 1];
      InCart(rows[..|rows| - 1], user, product)
      + if last.user == user && last.product == product then last.quantity else 0
  }

  lemma {:induction false} NotInCart(rows: seq<CartRow>, user: UserId, product: ProductId)
    requires forall i :: 0 <= i < |rows| ==> !SameSlot(rows[i], user, product)
    ensures InCart(rows, user, product) == 0
  {
    if rows != [] {
      NotInCart(rows[..|rows| - 1], user, product);
    }
  }

  lemma {:induction false} OneRowInCart(rows: seq<CartRow>, at: nat, user: UserId, product: ProductId)
    requires UniqueSlots(rows) && at < |rows| && SameSlot(rows[at], user, product)
    ensures InCart(rows, user, product) == rows[at].quantity
  {
    var front := rows[..|rows| - 1];
    if at < |front| {
      assert !SameSlot(rows[at], rows[|front|].user, rows[|front|].product);
      OneRowInCart(front, at, user, product);
    } else {
      forall i | 0 <= i < |front| ensures !SameSlot(front[i], user, product) {
        assert !SameSlot(rows[i], rows[at].user, rows[at].product);
      }
      NotInCart(front, user, product);
    }
  }

  lemma {:induction false} InCartUpdate(rows: seq<CartRow>, at: nat, x: CartRow, user: UserId, product: ProductId)
    requires at < |rows| && SameSlot(x, rows[at].user, rows[at].product)
    ensures InCart(rows[at := x], user, product)
         == InCart(rows, user, product) + if SameSlot(x, user, product) then x.quantity - rows[at].quantity else 0
  {
    var n := |rows| - 1;
    if at < n {
      assert rows[at := x][..n] == rows[..n][at := x];
      InCartUpdate(rows[..n], at, x, user, product);
    } else {
      assert rows[at := x][..n] == rows[..n];
    }
  }

  /** After an upsert the cart holds exactly the given quantity of the product, and everything else as
      before. */
  lemma UpsertSetsQuantity(rows: seq<CartRow>, w: Write, user: UserId, product: ProductId)
    requires UniqueSlots(rows) && w.Upsert? && forall i :: 0 <= i < |rows| ==> rows[i].id != w.id
    ensures InCart(Apply(rows, w), user, product)
         == if user == w.user && product == w.product then w.quantity else InCart(rows, user, product)
  {
    var at := FindSlot(rows, w.user, w.product);
    if at.Some? {
      OneRowInCart(rows, at.value, w.user, w.product);
      InCartUpdate(rows, at.value, rows[at.value].(quantity := w.quantity), user, product);
    } else {
      NotInCart(rows, w.user, w.product);
      assert (rows + [CartRow(w.id, w.user, w.product, w.quantity)])[..|rows|] == rows;
    }
  }

  // ---- The order request of a checkout

  function RequestOf(rows: seq<CartRow>, user: UserId): seq<Item> {
    if rows == [] then []
    else
      var last := rows[|rows| - 1];
      RequestOf(rows[..|rows| - 1], user) + if last.user == user then [Item(last.product, last.quantity)] else []
  }

  lemma {:induction false} RequestIs(rows: seq<CartRow>, user: UserId, item: Item)
    ensures item in RequestOf(rows, user) <==>
            exists i :: 0 <= i < |rows| && SameSlot(rows[i], user, item.product) && rows[i].quantity == item.quantity
  {
    if rows != [] {
      var front, last := rows[..|rows| - 1], rows[|rows| - 1];
      RequestIs(front, user, item);
      if i :| 0 <= i < |front| && SameSlot(front[i], user, item.product) && front[i].quantity == item.quantity {
        assert rows[i] == front[i];
      }
      if i :| 0 <= i < |rows| && SameSlot(rows[i], user, item.product) && rows[i].quantity == item.quantity {
        assert i < |front| ==> front[i] == rows[i];
      }
    }
  }

  lemma {:induction false} RequestDistinct(rows: seq<CartRow>, user: UserId)
    requires UniqueSlots(rows)
    ensures DistinctProducts(RequestOf(rows, user))
  {
    if rows != [] {
      var front, last := rows[..|rows| - 1], rows[|rows| - 1];
      RequestDistinct(front, user);
      var early := RequestOf(front, user);
      forall k | 0 <= k < |early| && last.user == user ensures early[k].product != last.product {
        RequestIs(front, user, early[k]);
        var i :| 0 <= i < |front| && SameSlot(front[i], user, early[k].product);
        assert !SameSlot(rows[i], last.user, last.product);
      }
    }
  }

  /** Whatever the interleaving of cart writes, a checkout asks for every product at most once, so it
      is a request under which no stock goes negative; it asks for exactly the rows of the cart. */
  lemma CheckoutIsOrderly(ws: seq<Write>, user: UserId, key: Option<Key>, item: Item)
    ensures var rows := Replay([], ws);
            && OrderlyEvent(StartCreate(user, key, RequestOf(rows, user)))
            && (item in RequestOf(rows, user) <==>
                exists i ::
                  0 <= i < |rows| && SameSlot(rows[i], user, item.product) && rows[i].quantity == item.quantity)
  {
    hide Replay, RequestOf;
    ReplayKeeps([], ws);
    RequestDistinct(Replay([], ws), user);
    RequestIs(Replay([], ws), user, item);
  }

  // ---- A checkout that other cart writes overlap

  /** The ids that `clearCart` removes, from the rows that it reads. */
  function IdsOf(rows: seq<CartRow>, user: UserId): set<RowId> {
    set i | 0 <= i < |rows| && rows[i].user == user :: rows[i].id
  }

  predicate Ordered(ordered: seq<CartRow>, user: UserId, r: CartRow) {
    exists i :: 0 <= i < |ordered| && SameSlot(ordered[i], user, r.product) && ordered[i].quantity == r.quantity
  }

  /** The cart as the checkout reads it, as the clear reads it, and as the removal finds it. */
  datatype Seen = Seen(ordered: seq<CartRow>, cleared: seq<CartRow>, found: seq<CartRow>)

  function SeenBy(before: seq<Write>, meanwhile: seq<Write>, late: seq<Write>): Seen {
    var ordered := Replay([], before);
    var cleared := Replay(ordered, meanwhile);
    Seen(ordered, cleared, Replay(cleared, late))
  }

  /** Whatever other calls write before the checkout reads the cart, before its clear reads it again and
      before the rows are removed: exactly the rows that the clear read are removed, and all of them were
      ordered exactly when each still has the product and quantity of a row that the checkout read. */
  lemma ClearedRowsIff(before: seq<Write>, meanwhile: seq<Write>, late: seq<Write>, user: UserId)
    ensures var seen := SeenBy(before, meanwhile, late);
            var left := Apply(seen.found, Remove(IdsOf(seen.cleared, user)));
            var order := RequestOf(seen.ordered, user);
            && (forall r :: r in left <==> r in seen.found && r.id !in IdsOf(seen.cleared, user))
            && ((forall r :: r in seen.found && r !in left ==> Item(r.product, r.quantity) in order) <==>
                (forall r :: r in seen.found && r.id in IdsOf(seen.cleared, user) ==> Ordered(seen.ordered, user, r)))
  {
    hide Replay, RequestOf, IdsOf, Without;
    var seen := SeenBy(before, meanwhile, late);
    ReplayKeeps([], before);
    ReplayKeeps(seen.ordered, meanwhile);
    ReplayKeeps(seen.cleared, late);
    WithoutKeeps(seen.found, IdsOf(seen.cleared, user));
    forall r: CartRow
      ensures Item(r.product, r.quantity) in RequestOf(seen.ordered, user) <==> Ordered(seen.ordered, user, r)
    {
      RequestIs(seen.ordered, user, Item(r.product, r.quantity));
    }
  }

  /** A product that is put into the cart while its order is being created leaves the cart with the
      others and is not in the order. */
  lemma AddedDuringCheckout()
    ensures var seen := SeenBy([Upsert(0, 1, 7, 2)], [Upsert(1, 1, 8, 1)], []);
            && RequestOf(seen.ordered, 1) == [Item(7, 2)]
            && seen.found == [CartRow(0, 1, 7, 2), CartRow(1, 1, 8, 1)]
            && Apply(seen.found, Remove(IdsOf(seen.cleared, 1))) == []
  {
    var one, both := [CartRow(0, 1, 7, 2)], [CartRow(0, 1, 7, 2), CartRow(1, 1, 8, 1)];
    assert Apply([], Upsert(0, 1, 7, 2)) == one;
    assert one[..0] == [] && both[..1] == one;
    assert FindSlot(one, 1, 8).None? && FindId(one, 1).None?;
    assert Apply(one, Upsert(1, 1, 8, 1)) == both;
    assert both[0].id in IdsOf(both, 1) && both[1].id in IdsOf(both, 1);
    assert Without(one, IdsOf(both, 1)) == [];
  }

  lemma UpsertOfRow(rows: seq<CartRow>, at: nat, id: RowId, quantity: int)
    requires UniqueSlots(rows) && at < |rows|
    ensures Apply(rows, Upsert(id, rows[at].user, rows[at].product, quantity))
         == rows[at := rows[at].(quantity := quantity)]
    ensures UniqueSlots(rows[at := rows[at].(quantity := quantity)])
  {
    assert SameSlot(rows[at], rows[at].user, rows[at].product);
  }

  /** Two overlapping `addItem` calls for one product: both add to the quantity that they read, and the
      addition that is written first is lost. */
  lemma {:induction false} OverlappingAddItems(rows: seq<CartRow>, at: nat, first: int, second: int, id: RowId)
    requires UniqueSlots(rows) && at < |rows|
    ensures Replay(rows, [Upsert(id, rows[at].user, rows[at].product, rows[at].quantity + first),
                          Upsert(id, rows[at].user, rows[at].product, rows[at].quantity + second)])
         == rows[at := rows[at].(quantity := rows[at].quantity + second)]
  {
    hide Apply, UniqueSlots;
    var r := rows[at];
    var ws := [Upsert(id, r.user, r.product, r.quantity + first), Upsert(id, r.user, r.product, r.quantity + second)];
    UpsertOfRow(rows, at, id, r.quantity + first);
    var rows1 := rows[at := r.(quantity := r.quantity + first)];
    UpsertOfRow(rows1, at, id, r.quantity + second);
    assert ws[1..] == [ws[1]] && ws[1..][1..] == [];
    assert Replay(rows1, [ws[1]]) == Apply(rows1, ws[1]);
    assert rows1[at := r.(quantity := r.quantity + second)] == rows[at := r.(quantity := r.quantity + second)];
  }

  // ---- cart.service.ts

  class CartService {
    const shop: Shop
    var rows: seq<CartRow>

    ghost predicate Valid()
      reads this
    {
      UniqueSlots(rows) && UniqueRowIds(rows)
    }

    constructor (shop: Shop)
      ensures Valid() && rows == [] && this.shop == shop
    {
      this.shop, rows := shop, [];
    }

    /** A row of the user's cart, as `cart.items.find` returns it. */
    method FindOwned(user: UserId, id: RowId) returns (r: Option<CartRow>)
      requires Valid()
      ensures r.Some? ==> r.value in rows && r.value.id == id && r.value.user == user
      ensures r.None? ==> forall i :: 0 <= i < |rows| ==> rows[i].id != id || rows[i].user != user
    {
      var at := FindId(rows, id);
      r := if at.Some? && rows[at.value].user == user then Some(rows[at.value]) else None;
    }

    /** `id` is the random id of a new row; false stands for an exception. */
    method AddItem(id: RowId, user: UserId, product: ProductId, quantity: int) returns (ok: bool)
      requires Valid() && quantity >= 1
      requires forall i :: 0 <= i < |rows| ==> rows[i].id != id
      modifies this`rows
      ensures Valid()
      ensures var at := FindSlot(old(rows), user, product);
              var wanted := quantity + if at.Some? then old(rows)[at.value].quantity else 0;
              && (ok <==>
                    && product in shop.products && !shop.products[product].deleted && shop.products[product].active
                    && shop.products[product].stock != 0 && wanted <= shop.products[product].stock)
              && rows == if ok then Apply(old(rows), Upsert(id, user, product, wanted)) else old(rows)
      ensures ok <==>
              && product in shop.products && !shop.products[product].deleted && shop.products[product].active
              && shop.products[product].stock != 0
              && InCart(old(rows), user, product) + quantity <= shop.products[product].stock
      ensures forall u, p :: InCart(rows, u, p)
                           == InCart(old(rows), u, p) + if ok && u == user && p == product then quantity else 0
    {
      if product !in shop.products || shop.products[product].deleted {
        return false;
      }
      var row := shop.products[product];
      if !row.active {
        return false;
      }
      if row.stock == 0 {
        return false;
      }
      var existing := FindSlot(rows, user, product);
      var newQuantity := (if existing.Some? then rows[existing.value].quantity else 0) + quantity;
      if existing.Some? {
        OneRowInCart(rows, existing.value, user, product);
      } else {
        NotInCart(rows, user, product);
      }
      if newQuantity > row.stock {
        return false;
      }
      ApplyKeeps(rows, Upsert(id, user, product, newQuantity));
      forall u, p
        ensures InCart(Apply(rows, Upsert(id, user, product, newQuantity)), u, p)
             == if u == user && p == product then newQuantity else InCart(rows, u, p)
      {
        UpsertSetsQuantity(rows, Upsert(id, user, product, newQuantity), u, p);
      }
      rows := Apply(rows, Upsert(id, user, product, newQuantity));
      ok := true;
    }

    method UpdateItem(user: UserId, id: RowId, quantity: int) returns (ok: bool)
      requires Valid() && quantity >= 1
      modifies this`rows
      ensures Valid()
      ensures ok <==> exists i ::
                && 0 <= i < |old(rows)| && old(rows)[i].id == id && old(rows)[i].user == user
                && old(rows)[i].product in shop.products && !shop.products[old(rows)[i].product].deleted
                && quantity <= shop.products[old(rows)[i].product].stock
      ensures !ok ==> rows == old(rows)
      ensures ok ==> exists i ::
                && 0 <= i < |old(rows)| && old(rows)[i].id == id && old(rows)[i].user == user
                && rows == old(rows)[i := old(rows)[i].(quantity := quantity)]
    {
      var found := FindOwned(user, id);
      if found.None? {
        return false;
      }
      // the relation does not load a soft-deleted product, and reading its stock throws
      if found.value.product !in shop.products || shop.products[found.value.product].deleted {
        return false;
      }
      if quantity > shop.products[found.value.product].stock {
        return false;
      }
      var item := found.value.(quantity := quantity);
      ApplyKeeps(rows, Save(item));
      ghost var at := FindId(rows, id).value;
      assert rows[at] == found.value;
      rows := Apply(rows, Save(item));
      ok := true;
    }

    method RemoveItem(user: UserId, id: RowId) returns (ok: bool)
      requires Valid()
      modifies this`rows
      ensures Valid()
      ensures ok <==> exists i :: 0 <= i < |old(rows)| && old(rows)[i].id == id && old(rows)[i].user == user
      ensures rows == if ok then Without(old(rows), {id}) else old(rows)
      ensures forall r :: r in rows <==> r in old(rows) && !(ok && r.id == id)
    {
      var found := FindOwned(user, id);
      if found.None? {
        return false;
      }
      WithoutKeeps(rows, {id});
      rows := Apply(rows, Remove({id}));
      ok := true;
    }

    method ClearCart(user: UserId)
      requires Valid()
      modifies this`rows
      ensures Valid()
      ensures forall r :: r in rows <==> r in old(rows) && r.user != user
    {
      var ids := set i | 0 <= i < |rows| && rows[i].user == user :: rows[i].id;
      WithoutKeeps(rows, ids);
      forall r | r in rows ensures r.id in ids <==> r.user == user {
        var i :| 0 <= i < |rows| && rows[i] == r;
        if r.id in ids {
          var j :| 0 <= j < |rows| && rows[j].user == user && rows[j].id == r.id;
          assert i == j;
        }
      }
      rows := Apply(rows, Remove(ids));
    }

    method ItemsOf(user: UserId) returns (items: seq<Item>)
      ensures items == RequestOf(rows, user)
    {
      items := [];
      for i := 0 to |rows|
        invariant items == RequestOf(rows[..i], user)
      {
        assert rows[..i + 1][..i] == rows[..i];
        if rows[i].user == user {
          items := items + [Item(rows[i].product, rows[i].quantity)];
        }
      }
      assert rows[..|rows|] == rows;
    }

    /** `None` stands for an exception; the cart is emptied exactly when an order came back, and that is
        the earlier order of a key that was used before. */
    method Checkout(user: UserId, key: Option<Key>, faults: Faults) returns (r: Option<OrderId>)
      requires Valid()
      modifies this`rows, shop
      ensures Valid()
      ensures var items := RequestOf(old(rows), user);
              && DistinctProducts(items)
              && (items == [] ==> r.None? && shop.Now() == old(shop.Now()))
              && (items != [] ==>
                    shop.Now() == Run(old(shop.Now()), CreateEvents(user, key, items, |old(shop.creates)|, faults)))
      ensures RequestOf(old(rows), user) != [] && ValidQuantities(RequestOf(old(rows), user)) && key.Some? &&
              FindKey(old(shop.orders), key.value).Some?
              ==> r == FindKey(old(shop.orders), key.value) && shop.orders == old(shop.orders)
      ensures r.None? ==> rows == old(rows)
      ensures r.Some? ==> forall x :: x in rows <==> x in old(rows) && x.user != user
    {
      hide Run, CreateEvents, RequestOf;
      RequestDistinct(rows, user);
      var items := ItemsOf(user);
      if items == [] {
        return None;
      }
      if key.Some? && ValidQuantities(items) && FindKey(shop.orders, key.value).Some? {
        ReusedKey(shop.Now(), user, key.value, items, faults);
      }
      r := shop.CreateOrder(user, key, items, faults);
      if r.Some? {
        ClearCart(user);
      }
    }
  }
}
