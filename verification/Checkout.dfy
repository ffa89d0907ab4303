/** From the cart to the payments table: what a customer was shown is what is authorized and stored. */
module Checkout {
  import opened Common
  import opened Stock
  import opened Protocol
  import opened Amounts
  import opened Invariants
  import opened Ledger
  import opened Theorems
  import opened ShopService
  import opened Outcomes
  import opened Money
  import opened Cart

  /** The prices at which a request is shown fit their numeric(12,2) columns. */
  predicate PricesFit(items: seq<Item>, table: Table)
    requires forall i :: 0 <= i < |items| ==> items[i].product in table
  {
    forall i :: 0 <= i < |items| ==> table[items[i].product].price < PRICE_LIMIT
  }

  predicate SamePrices(items: seq<Item>, shown: Table, table: Table)
    requires forall i :: 0 <= i < |items| ==> items[i].product in shown
  {
    forall i :: 0 <= i < |items| ==>
      items[i].product in table && table[items[i].product].price == shown[items[i].product].price
  }

  /** Every authorization call and every payments row of the order is over the amount of `lines`. */
  predicate ChargedAs(s: State, o: OrderId, lines: seq<Line>)
    requires Countable(lines)
  {
    && (forall a :: 0 <= a < |s.authCalls| && s.authCalls[a].order == o ==>
          s.authCalls[a].amount as real == TotalSum(lines) && StoredAmount(s.authCalls[a].amount) == CartTotal(lines))
    && (forall p :: 0 <= p < |s.payments| && s.payments[p].order == o ==> s.payments[p].amount == CartTotal(lines))
  }

  /** What the items cost: the price of each item's own product, times its quantity. */
  function ItemsCents(items: seq<Item>, products: Table): int
    requires forall i :: 0 <= i < |items| ==> items[i].product in products
  {
    if items == [] then 0
    else
      var last := items[|items| - 1];
      ItemsCents(items[..|items| - 1], products) + products[last.product].price * last.quantity
  }

  predicate Sold(rows: seq<CartRow>, user: UserId, products: Table) {
    forall i :: 0 <= i < |rows| && rows[i].user == user ==> rows[i].product in products
  }

  /** What the cart costs, row by row. */
  function CartCents(rows: seq<CartRow>, user: UserId, products: Table): int
    requires Sold(rows, user, products)
  {
    if rows == [] then 0
    else
      var last := rows[|rows| - 1];
      CartCents(rows[..|rows| - 1], user, products)
      + if last.user == user then products[last.product].price * last.quantity else 0
  }

  lemma {:induction false} CartIsItems(rows: seq<CartRow>, user: UserId, products: Table)
    requires Sold(rows, user, products)
    ensures forall i :: 0 <= i < |RequestOf(rows, user)| ==> RequestOf(rows, user)[i].product in products
    ensures ItemsCents(RequestOf(rows, user), products) == CartCents(rows, user, products)
  {
    if rows != [] {
      var front, last := rows[..|rows| - 1], rows[|rows| - 1];
      CartIsItems(front, user, products);
      if last.user == user {
        assert (RequestOf(front, user) + [Item(last.product, last.quantity)])[..|RequestOf(front, user)|]
            == RequestOf(front, user);
      } else {
        assert RequestOf(rows, user) == RequestOf(front, user);
      }
    }
  }

  /** Lines at the prices of their own products add up to what the items cost. */
  lemma {:induction false} LinesCost(lines: seq<Line>, items: seq<Item>, products: Table)
    requires |lines| == |items| && forall i :: 0 <= i < |items| ==> PricedAs(lines[i], items[i], products)
    requires forall i :: 0 <= i < |items| ==> items[i].product in products
    ensures TotalCents(lines) == ItemsCents(items, products)
  {
    if items != [] {
      LinesCost(lines[..|items| - 1], items[..|items| - 1], products);
    }
  }

  lemma ShownAtOwnPrices(items: seq<Item>, products: Table)
    requires forall i :: 0 <= i < |items| ==> items[i].product in products
    ensures forall i :: 0 <= i < |items| ==> PricedAs(PricedLines(items, products)[i], items[i], products)
    ensures TotalCents(PricedLines(items, products)) == ItemsCents(items, products)
  {
    LinesCost(PricedLines(items, products), items, products);
  }

  /** Every authorization call and every payments row of the order is over so many cents. */
  predicate ChargedCents(s: State, o: OrderId, cents: nat) {
    && (forall a :: 0 <= a < |s.authCalls| && s.authCalls[a].order == o ==> s.authCalls[a].amount == cents)
    && (forall p :: 0 <= p < |s.payments| && s.payments[p].order == o ==> s.payments[p].amount == CentsText(cents))
  }

  lemma ChargedInCents(s: State, o: OrderId, lines: seq<Line>)
    requires Countable(lines) && Storable(lines) && WithinCart(lines) && ChargedAs(s, o, lines)
    ensures TotalCents(lines) >= 0 && ChargedCents(s, o, TotalCents(lines))
    ensures CartTotal(lines) == CentsText(TotalCents(lines))
  {
    hide CartTotal, StoredAmount, CentsText, TotalSum, Within, TotalCents, SentCents;
    AmountsAgree(lines);
  }

  lemma LinesStorable(items: seq<Item>, table: Table)
    requires forall i :: 0 <= i < |items| ==> items[i].product in table
    requires ValidQuantities(items) && PricesFit(items, table)
    ensures Storable(PricedLines(items, table)) && Countable(PricedLines(items, table))
  {
  }

  lemma ChargedByInv(s: State, o: OrderId, lines: seq<Line>)
    requires Inv(s) && o < |s.orders| && s.orders[o].lines == lines
    requires Storable(lines) && WithinCart(lines)
    ensures Countable(lines) && ChargedAs(s, o, lines)
  {
    hide KeysUnique, CreatesOk, PublishedOk, QueuesOk, ProcessedOk, DeliveriesOk, PayersOk, OrdersOk, CancelsOk,
         PaidOk, NothingLost, WithinCart, TotalCents, TotalSum, SentCents, StoredAmount, CartTotal, CentsText,
         FitsColumn, IsAmount, CentsOf;
    AmountsAgree(lines);
  }

  /** The order that a committed transaction creates has the lines that were shown. */
  lemma CommittedLines(s: State, c: nat, shown: Table)
    requires c < |s.creates| && s.creates[c].phase.Prechecked?
    requires Step(s, CreateTx(c)).creates[c].phase.Committed?
    requires forall i :: 0 <= i < |s.creates[c].items| ==> s.creates[c].items[i].product in shown
    requires SamePrices(s.creates[c].items, shown, s.products)
    ensures var t := Step(s, CreateTx(c));
            && t.creates[c].phase == Committed(|s.orders|) && |t.orders| == |s.orders| + 1
            && t.orders[|s.orders|].lines == PricedLines(s.creates[c].items, shown)
  {
    hide DoCreateTx, Taken, FindKey, FirstRejection, ProductIds;
    RefusedTransaction(s, c);
    AcceptedTransaction(s, c);
  }

  /** For every interleaving: when the transaction of a create call commits at the prices that were
      shown, then whatever happens afterwards, the amount of every authorization call of the order is
      the total of what was shown, and the text in every payments row of the order is the total that
      the cart showed. */
  lemma ChargedAsShown(s0: State, es: seq<Event>, c: nat, shown: Table, fs: seq<Event>)
    requires Initial(s0)
    requires var s := Run(s0, es);
             && c < |s.creates| && s.creates[c].phase.Prechecked?
             && Step(s, CreateTx(c)).creates[c].phase.Committed?
             && (forall i :: 0 <= i < |s.creates[c].items| ==> s.creates[c].items[i].product in shown)
             && SamePrices(s.creates[c].items, shown, s.products) && PricesFit(s.creates[c].items, shown)
             && WithinCart(PricedLines(s.creates[c].items, shown))
    ensures var s := Run(s0, es);
            var lines := PricedLines(s.creates[c].items, shown);
            Countable(lines) && ChargedAs(Run(s0, es + [CreateTx(c)] + fs), |s.orders|, lines)
    ensures var s := Run(s0, es);
            var items := s.creates[c].items;
            && ItemsCents(items, shown) >= 0
            && ChargedCents(Run(s0, es + [CreateTx(c)] + fs), |s.orders|, ItemsCents(items, shown))
            && Countable(PricedLines(items, shown))
            && CartTotal(PricedLines(items, shown)) == CentsText(ItemsCents(items, shown))
  {
    hide Run, Step, Inv, WithinCart, ChargedAs, PricedLines, PricesFit, Storable, Countable, ChargedCents, ItemsCents,
         TotalCents, CartTotal, CentsText;
    var s := Run(s0, es);
    var o, lines := |s.orders|, PricedLines(s.creates[c].items, shown);
    CommittedLines(s, c, shown);
    EveryRunKeepsInv(s0, es + [CreateTx(c)]);
    EveryRunKeepsInv(s0, es + [CreateTx(c)] + fs);
    Then(s0, es, CreateTx(c));
    RunConcat(s0, es + [CreateTx(c)], fs);
    RunEvolves(Run(s0, es + [CreateTx(c)]), fs);
    CallHasValidItems(s0, es, c);
    LinesStorable(s.creates[c].items, shown);
    ChargedByInv(Run(s0, es + [CreateTx(c)] + fs), o, lines);
    ChargedInCents(Run(s0, es + [CreateTx(c)] + fs), o, lines);
    ShownAtOwnPrices(s.creates[c].items, shown);
  }

  lemma CallHasValidItems(s0: State, es: seq<Event>, c: nat)
    requires Initial(s0) && c < |Run(s0, es).creates| && !Run(s0, es).creates[c].phase.Thrown?
    ensures ValidQuantities(Run(s0, es).creates[c].items)
  {
    hide Run;
    InitialInv(s0);
    RunQuantities(s0, es);
  }

  /** What the cart shows: its rows at the prices of the products table. */
  function ShownLines(rows: seq<CartRow>, user: UserId, table: Table): seq<Line>
    requires forall i :: 0 <= i < |RequestOf(rows, user)| ==> RequestOf(rows, user)[i].product in table
  {
    PricedLines(RequestOf(rows, user), table)
  }

  /** The first half of a create call that is not interleaved with others. */
  function EarlyEvents(user: UserId, key: Option<Key>, items: seq<Item>, c: nat): seq<Event> {
    [StartCreate(user, key, items), CheckKey(c), Precheck(c)]
  }

  function EarlyStep(s: State, user: UserId, key: Option<Key>, items: seq<Item>): State {
    DoPrecheck(DoCheckKey(DoStartCreate(s, user, key, items), |s.creates|), |s.creates|)
  }

  lemma EarlyRun(s: State, user: UserId, key: Option<Key>, items: seq<Item>)
    ensures Run(s, EarlyEvents(user, key, items, |s.creates|)) == EarlyStep(s, user, key, items)
  {
    hide Run, Step, DoStartCreate, DoCheckKey, DoPrecheck;
    ThreeSteps(s, EarlyEvents(user, key, items, |s.creates|));
    EarlySteps(s, user, key, items, |s.creates|);
  }

  lemma EarlyOutcome(s: State, user: UserId, key: Option<Key>, items: seq<Item>)
    requires !UniqueViolated(s.orders, key)
    ensures var t := EarlyStep(s, user, key, items);
            && t.products == s.products && t.orders == s.orders && |t.creates| == |s.creates| + 1
            && (t.creates[|s.creates|] == CreateCall(user, key, items, Prechecked)
                || t.creates[|s.creates|] == CreateCall(user, key, items, Thrown))
  {
    hide SameBooks, NoNewPayer, ValidQuantities, FindKey, LockedRows, ProductIds;
    var c := |s.creates|;
    var s1 := DoStartCreate(s, user, key, items);
    assert s1.orders == s.orders && s1.products == s.products && s1.creates[c].phase in {Started, Thrown};
    var s2 := DoCheckKey(s1, c);
    assert s2.orders == s.orders && s2.products == s.products && s2.creates[c].phase in {KeyFree, Thrown};
  }

  lemma EarlySteps(s: State, user: UserId, key: Option<Key>, items: seq<Item>, c: nat)
    ensures Step(s, StartCreate(user, key, items)) == DoStartCreate(s, user, key, items)
    ensures Step(DoStartCreate(s, user, key, items), CheckKey(c)) == DoCheckKey(DoStartCreate(s, user, key, items), c)
    ensures Step(DoCheckKey(DoStartCreate(s, user, key, items), c), Precheck(c))
         == DoPrecheck(DoCheckKey(DoStartCreate(s, user, key, items), c), c)
  {
    hide SameBooks, NoNewPayer, DoStartCreate, DoCheckKey, DoPrecheck;
  }

  /** With a fresh key, a call that has passed its pre-check returns only the order that its own
      transaction commits. */
  lemma LateOutcome(s: State, c: nat, faults: Faults)
    requires c < |s.creates| && !UniqueViolated(s.orders, s.creates[c].key)
    requires s.creates[c].phase.Prechecked? || s.creates[c].phase.Thrown?
    ensures var t := PublishStep(DoRecover(TransactionStep(s, c, faults), c), c, faults);
            && |t.creates| == |s.creates|
            && (t.creates[c].phase.Returned? ==>
                  && s.creates[c].phase.Prechecked? && !faults.timesOut
                  && DoCreateTx(s, c).creates[c].phase.Committed?
                  && t.creates[c].phase == Returned(|s.orders|))
  {
    hide UniqueViolated, FirstRejection, LockedRows, ProductIds, Taken, SameBooks, NoNewPayer, PricedLines;
    if s.creates[c].phase.Thrown? {
      StepsOver(s, c, faults);
    } else if !faults.timesOut {
      RefusedTransaction(s, c);
      if DoCreateTx(s, c).creates[c].phase.Committed? {
        CallCommitted(DoCreateTx(s, c), c);
      }
    }
  }

  /** A checkout with a fresh key and unchanged prices: the cart's total, the amount of every
      authorization call and the text of every payments row of the returned order agree, in whatever
      state any continuation reaches: all are the sum of price times quantity over the rows of the cart. */
  lemma CheckoutChargedAsShown(s0: State, es: seq<Event>, rows: seq<CartRow>, user: UserId, key: Option<Key>,
                               faults: Faults, o: OrderId, fs: seq<Event>)
    requires Initial(s0) && !UniqueViolated(Run(s0, es).orders, key)
    requires var s, items := Run(s0, es), RequestOf(rows, user);
             && Sold(rows, user, s.products)
             && (forall i :: 0 <= i < |items| ==> items[i].product in s.products)
             && PricesFit(items, s.products) && WithinCart(ShownLines(rows, user, s.products))
    requires var s := Run(s0, es);
             var t := Run(s, CreateEvents(user, key, RequestOf(rows, user), |s.creates|, faults));
             |s.creates| < |t.creates| && t.creates[|s.creates|].phase == Returned(o)
    ensures var s := Run(s0, es);
            var t := Run(s, CreateEvents(user, key, RequestOf(rows, user), |s.creates|, faults));
            var lines := ShownLines(rows, user, s.products);
            && Countable(lines) && ChargedAs(Run(t, fs), o, lines)
            && CartCents(rows, user, s.products) >= 0
            && ChargedCents(Run(t, fs), o, CartCents(rows, user, s.products))
            && CartTotal(lines) == CentsText(CartCents(rows, user, s.products))
  {
    hide Run, Step, WithinCart, ChargedAs, PricedLines, PricesFit, Countable, UniqueViolated, RequestOf, ChargedCents,
         ItemsCents, CartCents, CartTotal, CentsText, Sold,
         DoStartCreate, DoCheckKey, DoPrecheck, DoCreateTx, DoRecover, TransactionStep, PublishStep;
    var s, items := Run(s0, es), RequestOf(rows, user);
    CartIsItems(rows, user, s.products);
    var c := |s.creates|;
    var early := EarlyEvents(user, key, items, c);
    EarlyRun(s, user, key, items);
    EarlyOutcome(s, user, key, items);
    CreateSteps(s, user, key, items, c, faults);
    LateOutcome(Run(s, early), c, faults);
    RunConcat(s0, es, early);
    TransactionEvent(Run(s, early), c);
    var late := [Recover(c), if faults.brokerDown then PublishFails(c) else Publish(c)];
    ChargedAsShown(s0, es + early, c, s.products, late + fs);
    assert CreateEvents(user, key, items, c, faults) == early + [CreateTx(c)] + late;
    SplitRun(s0, es, early + [CreateTx(c)] + late, fs);
    assert es + early + [CreateTx(c)] + (late + fs) == es + (early + [CreateTx(c)] + late) + fs;
  }

  lemma TransactionEvent(s: State, c: nat)
    ensures Step(s, CreateTx(c)) == DoCreateTx(s, c)
  {
    hide DoCreateTx;
  }

  lemma SplitRun(s: State, es: seq<Event>, fs: seq<Event>, gs: seq<Event>)
    ensures Run(s, es + fs + gs) == Run(Run(Run(s, es), fs), gs)
  {
    hide Run;
    RunConcat(s, es, fs);
    RunConcat(s, es + fs, gs);
  }

  // ---- From the request to the payment

  /** The message of a new order has neither been processed nor is it being processed. */
  lemma FirstMessageIsNew(s: State, key: Option<Key>)
    requires Inv(s) && KeyUnused(s.orders, key)
    ensures !SeenBefore(s.processed, FirstMessage(s, key))
    ensures NoRival(s.deliveries + [Delivery(FirstMessage(s, key), true, Received)], |s.deliveries|)
    ensures !HasPayment(s.payments, |s.orders|)
  {
    hide KeysUnique, CreatesOk, QueuesOk, PayersOk, AuthCallsOk, OrdersOk, CancelsOk, PaidOk, NothingLost, SentCents,
         StoredAmount, FitsColumn;
    var m := FirstMessage(s, key);
    assert forall i :: 0 <= i < |s.published| ==>
      s.published[i].id != m.id && s.published[i].correlation != m.correlation;
  }

  lemma RequestStorable(lines: seq<Line>, items: seq<Item>, products: Table)
    requires |lines| == |items| && forall i :: 0 <= i < |items| ==> PricedAs(lines[i], items[i], products)
    requires Orderable(items) && forall i :: 0 <= i < |items| ==> items[i].product in products
    requires PricesFit(items, products) && 0 < ItemsCents(items, products) < 1_000_000_000_000
    ensures SentCents(lines) == ItemsCents(items, products)
    ensures StoredAmount(SentCents(lines)) == CentsText(ItemsCents(items, products))
  {
    hide SentCents, StoredAmount, CentsText;
    LinesCost(lines, items, products);
    SentCentsExact(lines);
    StoredAmountExact(ItemsCents(items, products));
  }

  /** The events of an order that is placed, delivered, processed and paid without interruption. */
  function PaidEvents(s: State, user: UserId, key: Option<Key>, items: seq<Item>): seq<Event> {
    CreateEvents(user, key, items, |s.creates|, NoFaults)
    + [Deliver(FirstMessage(s, key))]
    + HandlerEvents(|s.deliveries|, |s.authCalls|, true)
  }

  lemma ThreeParts(s: State, es: seq<Event>, e: Event, fs: seq<Event>)
    ensures Run(s, es + [e] + fs) == Run(Step(Run(s, es), e), fs)
  {
    hide Run, Step;
    RunConcat(s, es + [e], fs);
    Then(s, es, e);
  }

  /** After creation and delivery the message is with a worker, and nothing stands in the way of its payment. */
  lemma DeliveredIsPaid(s: State, t: State, user: UserId, key: Option<Key>, items: seq<Item>)
    requires Inv(s) && !s.paymentsDisabled && Orderable(items) && KeyUnused(s.orders, key) && InStock(items, s.products)
    requires PricesFit(items, s.products) && 0 < ItemsCents(items, s.products) < 1_000_000_000_000
    requires Placed(s, t, user, key, items) && t.queue == s.queue
    ensures var m := FirstMessage(s, key);
            var u := t.(deliveries := t.deliveries + [Delivery(m, true, Received)]);
            && FateOf(u, m, true) == Paid && NoRival(u.deliveries, |s.deliveries|)
            && !HasPayment(u.payments, |s.orders|)
            && StoredAmount(SentCents(u.orders[|s.orders|].lines)) == CentsText(ItemsCents(items, s.products))
  {
    hide Inv, SentCents, StoredAmount, CentsText, Orderable, PricesFit, InStock, SeenBefore, HasPayment, NoRival,
         ItemsCents, Quantity;
    FirstMessageIsNew(s, key);
    RequestStorable(t.orders[|s.orders|].lines, items, s.products);
  }

  /** The order is there and PAID, with one new payments row of exactly its cost; stock is taken, and the queues
      are as they were. */
  predicate PaidOrder(s: State, t: State, user: UserId, key: Option<Key>, items: seq<Item>)
    requires forall i :: 0 <= i < |items| ==> items[i].product in s.products
  {
    var o := |s.orders|;
    && ItemsCents(items, s.products) >= 0
    && |t.orders| == o + 1 && t.orders[o].user == user && t.orders[o].key == key
    && |t.orders[o].lines| == |items|
    && (forall i :: 0 <= i < |items| ==> PricedAs(t.orders[o].lines[i], items[i], s.products))
    && t.orders[o].status == PAID && t.orders[o].payment == Some(|s.payments|)
    && t.payments == s.payments + [Payment(o, CentsText(ItemsCents(items, s.products)))]
    && t.queue == s.queue && t.dlq == s.dlq
    && t.products.Keys == s.products.Keys
    && forall p :: p in s.products ==>
         t.products[p] == s.products[p].(stock := s.products[p].stock - Quantity(items, p))
  }

  lemma NewPayment(payments: seq<Payment>, later: seq<Payment>, o: OrderId, p: PaymentId)
    requires !HasPayment(payments, o) && |later| == |payments| + 1 && payments <= later
    requires p < |later| && later[p].order == o
    ensures p == |payments|
  {
  }

  lemma {:induction false} EndsPaid(s: State, t: State, v: State, user: UserId, key: Option<Key>, items: seq<Item>)
    requires forall i :: 0 <= i < |items| ==> items[i].product in s.products
    requires ItemsCents(items, s.products) >= 0
    requires Placed(s, t, user, key, items) && t.queue == s.queue
    requires var m := FirstMessage(s, key);
             var u := t.(deliveries := t.deliveries + [Delivery(m, true, Received)]);
             && FateOf(u, m, true) == Paid && !HasPayment(u.payments, |s.orders|)
             && Leaves(u, v, |s.deliveries|, true)
             && StoredAmount(SentCents(u.orders[|s.orders|].lines)) == CentsText(ItemsCents(items, s.products))
    ensures PaidOrder(s, v, user, key, items)
  {
    hide FateOf, SentCents, StoredAmount, CentsText, ItemsCents, Quantity, PricedAs;
    var m := FirstMessage(s, key);
    var u := t.(deliveries := t.deliveries + [Delivery(m, true, Received)]);
    assert u.deliveries[|s.deliveries|].message == m;
    var p: PaymentId :| PaidIn(u, v, m, p);
    NewPayment(u.payments, v.payments, m.order, p);
  }

  /** From every reachable state: a request that is in stock, under a key that nobody has used, at a total that
      the payments table can hold, becomes an order that is delivered, processed and PAID. */
  lemma PlacedIsPaid(s0: State, es: seq<Event>, user: UserId, key: Option<Key>, items: seq<Item>)
    requires Initial(s0)
    requires var s := Run(s0, es);
             && !s.paymentsDisabled && Orderable(items) && KeyUnused(s.orders, key) && InStock(items, s.products)
             && PricesFit(items, s.products) && 0 < ItemsCents(items, s.products) < 1_000_000_000_000
    ensures var s := Run(s0, es);
            PaidOrder(s, Run(s, PaidEvents(s, user, key, items)), user, key, items)
  {
    hide Run, Step, Inv, CreateEvents, HandlerEvents, Orderable, PricesFit, ItemsCents, KeyUnused, FateOf, NoRival,
         HasPayment, SentCents, StoredAmount, CentsText, Quantity, PaidOrder, Placed, Leaves, Unchanged;
    EveryRunKeepsInv(s0, es);
    var s, m := Run(s0, es), FirstMessage(Run(s0, es), key);
    var creation, d := CreateEvents(user, key, items, |s.creates|, NoFaults), |s.deliveries|;
    ThreeParts(s, creation, Deliver(m), HandlerEvents(d, |s.authCalls|, true));
    InvHasUniqueKeys(s);
    UnusedIsNotTaken(s.orders, key);
    CreateOutcome(s, user, key, items, NoFaults);
    var t := Run(s, creation);
    PlacedFrame(s, t, user, key, items);
    DeliveryMoves(t, m);
    var u := Step(t, Deliver(m));
    assert t.queue - multiset{m} == s.queue;
    DeliveredIsPaid(s, t.(queue := s.queue), user, key, items);
    HandlerOutcome(u, d, true);
    EndsPaid(s, t.(queue := s.queue), Run(u, HandlerEvents(d, |s.authCalls|, true)), user, key, items);
  }

  lemma PlacedFrame(s: State, t: State, user: UserId, key: Option<Key>, items: seq<Item>)
    requires Placed(s, t, user, key, items)
    ensures t.deliveries == s.deliveries && t.authCalls == s.authCalls
    ensures Placed(s, t.(queue := s.queue), user, key, items)
  {
    hide Quantity, PricedAs;
  }

  lemma InvHasUniqueKeys(s: State)
    requires Inv(s)
    ensures KeysUnique(s.orders)
  {
    hide KeysUnique, CreatesOk, PublishedOk, QueuesOk, ProcessedOk, DeliveriesOk, PayersOk, AuthCallsOk, PaymentsOk,
         OrdersOk, CancelsOk, PaidOk, NothingLost;
  }

  lemma UnusedIsNotTaken(orders: seq<Order>, key: Option<Key>)
    ensures KeyUnused(orders, key) <==> !KeyTaken(orders, key)
  {
  }
}
