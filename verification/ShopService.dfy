/** The services as they are written: methods over mutable tables and queues.  Each atomic piece
    between two awaits is proved to be one event of the protocol, and each whole service call,
    run without interruption, to be the corresponding list of events. */
module ShopService {
  import opened Common
  import opened Stock
  import opened Protocol
  import opened Amounts
  import opened Invariants
  import opened Theorems

  /** What can go wrong outside the shop during a create call: a lock or statement time-out or another
      database error in its transaction, and a broker that does not take the message. */
  datatype Faults = Faults(timesOut: bool, brokerDown: bool)

  const NoFaults := Faults(false, false)

  /** The events of one create call that no other call interleaves with. */
  function CreateEvents(user: UserId, key: Option<Key>, items: seq<Item>, c: nat, faults: Faults): seq<Event> {
    [StartCreate(user, key, items), CheckKey(c), Precheck(c),
     if faults.timesOut then CreateTxFails(c) else CreateTx(c), Recover(c),
     if faults.brokerDown then PublishFails(c) else Publish(c)]
  }

  function TransactionStep(s: State, c: nat, faults: Faults): State {
    if faults.timesOut then DoCreateTxFails(s, c) else DoCreateTx(s, c)
  }

  function PublishStep(s: State, c: nat, faults: Faults): State {
    if faults.brokerDown then DoPublishFails(s, c) else DoPublish(s, c)
  }

  lemma CreateSteps(s: State, user: UserId, key: Option<Key>, items: seq<Item>, c: nat, faults: Faults)
    ensures Run(s, CreateEvents(user, key, items, c, faults))
         == PublishStep(DoRecover(TransactionStep(DoPrecheck(DoCheckKey(
              DoStartCreate(s, user, key, items), c), c), c, faults), c), c, faults)
  {
    hide Run, SameBooks, NoNewPayer, DoStartCreate, DoCheckKey, DoPrecheck, DoCreateTx, DoCreateTxFails, DoRecover,
         DoPublish, DoPublishFails, DoStartCancel, DoCancelGuard, DoCancelLoad, DoCancelCommit, DoCancelFails,
         DoDeliver, DoWorkerBegin, DoWorkerCommit, DoWorkerFails, DoStartAuthorize, DoAuthorizeFails,
         DoAuthorizeReturns, DoPaymentWrite, DoReroute, DoAck, DoAckFails, DoCrash, DoRedeliver, DoServerFind,
         DoServerInsert, DoServerFails, DoAdminWrite;
    SixSteps(s, CreateEvents(user, key, items, c, faults));
  }

  lemma SixSteps(s: State, es: seq<Event>)
    requires |es| == 6
    ensures Run(s, es) == Step(Step(Step(Step(Step(Step(s, es[0]), es[1]), es[2]), es[3]), es[4]), es[5])
  {
    hide Step;
    FourSteps(s, es[..4]);
    Then(s, es[..4], es[4]);
    Then(s, es[..5], es[5]);
    assert es == es[..5] + [es[5]] && es[..5] == es[..4] + [es[4]];
  }

  /** A call that has returned or thrown takes no further step. */
  lemma CallOver(s: State, c: nat)
    requires c < |s.creates| && (s.creates[c].phase.Returned? || s.creates[c].phase.Thrown?)
    ensures DoCheckKey(s, c) == DoPrecheck(s, c) == DoCreateTx(s, c) == DoCreateTxFails(s, c) == s
    ensures DoRecover(s, c) == DoPublish(s, c) == DoPublishFails(s, c) == s
  {
  }

  lemma StepsOver(s: State, c: nat, faults: Faults)
    requires c < |s.creates| && (s.creates[c].phase.Returned? || s.creates[c].phase.Thrown?)
    ensures DoCheckKey(s, c) == DoPrecheck(s, c) == TransactionStep(s, c, faults) == s
    ensures DoRecover(s, c) == PublishStep(s, c, faults) == s
  {
    hide DoCheckKey, DoPrecheck, DoCreateTx, DoCreateTxFails, DoRecover, DoPublish, DoPublishFails;
    CallOver(s, c);
  }

  lemma KeyFound(s: State, user: UserId, key: Key, items: seq<Item>)
    requires ValidQuantities(items) && FindKey(s.orders, key).Some?
    ensures var t := DoCheckKey(DoStartCreate(s, user, Some(key), items), |s.creates|);
            && SameBooks(s, t) && |t.creates| == |s.creates| + 1
            && t.creates[|s.creates|].phase == Returned(FindKey(s.orders, key).value)
  {
    hide FindKey, ValidQuantities, NoNewPayer;
  }

  /** A call whose key an order already has returns that order and changes no table, whatever it asks for. */
  lemma ReusedKey(s: State, user: UserId, key: Key, items: seq<Item>, faults: Faults)
    requires ValidQuantities(items) && FindKey(s.orders, key).Some?
    ensures var t := Run(s, CreateEvents(user, Some(key), items, |s.creates|, faults));
            && SameBooks(s, t) && |t.creates| == |s.creates| + 1
            && t.creates[|s.creates|].phase == Returned(FindKey(s.orders, key).value)
  {
    hide Run, FindKey, CreateEvents, ValidQuantities, SameBooks, NoNewPayer, DoStartCreate, DoCheckKey, DoPrecheck,
         DoRecover, TransactionStep, PublishStep;
    KeyFound(s, user, key, items);
    CreateSteps(s, user, Some(key), items, |s.creates|, faults);
    StepsOver(DoCheckKey(DoStartCreate(s, user, Some(key), items), |s.creates|), |s.creates|, faults);
  }

  /** A committed call has nothing to recover from. */
  lemma CallCommitted(s: State, c: nat)
    requires c < |s.creates| && s.creates[c].phase.Committed?
    ensures DoRecover(s, c) == s
  {
  }

  /** A cancellation that the guards refuse only leaves its thrown call behind. */
  lemma RefusedCancel(s: State, user: UserId, o: OrderId)
    requires !Cancellable(s, user, o)
    ensures Run(s, CancelEvents(user, o, |s.cancels|)) == s.(cancels := s.cancels + [CancelCall(user, o, CancelThrown)])
  {
    hide Run, Step;
    var k := |s.cancels|;
    var s1 := DoStartCancel(s, user, o);
    assert s1 == s.(cancels := s.cancels + [CancelCall(user, o, CancelStarted)]);
    var s2 := DoCancelGuard(s1, k);
    assert s2 == s.(cancels := s.cancels + [CancelCall(user, o, CancelThrown)]);
    CancelSteps(s, user, o, k);
  }

  /** The events of one delivery that nothing interrupts; `reached` says whether the gRPC call
      comes back, and `a` is the position of the authorization call it may start. */
  function HandlerEvents(d: nat, a: nat, reached: bool): seq<Event> {
    [WorkerBegin(d), WorkerCommit(d), StartAuthorize(d)]
    + (if reached then [ServerFind(a), ServerInsert(a), AuthorizeReturns(d), PaymentWrite(d)] else [])
    + [AuthorizeFails(d), Reroute(d), Ack(d)]
  }

  datatype Processing = Skipped | Failed | Advanced

  /** The worker's transaction, begun and committed with nothing in between. */
  function WholeTransaction(s: State, d: nat): State
    requires d < |s.deliveries|
  {
    var m := s.deliveries[d].message;
    if Duplicate(s.processed, m) then SetHandler(s, d, Handled)
    else if m.order >= |s.orders| then SetHandler(s, d, Errored)
    else
      var order, recorded := s.orders[m.order], s.(processed := s.processed + {RowOf(m)});
      if order.status != PENDING then SetHandler(recorded, d, Handled)
      else
        SetHandler(recorded, d, if s.paymentsDisabled || order.payment.Some? then Handled else ToAuthorize).(
          orders := s.orders[m.order := order.(status := PROCESSED)])
  }

  lemma UninterruptedTransaction(s: State, d: nat)
    requires d < |s.deliveries| && s.deliveries[d].phase.Received? && !InsertBlocked(s.deliveries, d)
    ensures DoWorkerCommit(DoWorkerBegin(s, d), d) == WholeTransaction(s, d)
  {
    hide Duplicate, InsertBlocked, SameBooks, NoNewPayer, RowOf;
    var m := s.deliveries[d].message;
    if !Duplicate(s.processed, m) && m.order < |s.orders| {
      var t := DoWorkerBegin(s, d);
      assert t.deliveries == s.deliveries[d := s.deliveries[d].(phase := InTransaction(s.orders[m.order]))];
      assert forall phase :: t.deliveries[d := t.deliveries[d].(phase := phase)]
                          == s.deliveries[d := s.deliveries[d].(phase := phase)];
    }
  }

  function AfterTransaction(s: State, d: nat): State {
    DoStartAuthorize(DoWorkerCommit(DoWorkerBegin(s, d), d), d)
  }

  function AfterPayment(s: State, d: nat, a: nat): State {
    DoPaymentWrite(DoAuthorizeReturns(DoServerInsert(DoServerFind(s, a), a), d), d)
  }

  /** The payment write that follows an answer of the payments service. */
  lemma WriteAfterReturn(s: State, d: nat, p: PaymentId)
    requires d < |s.deliveries| && s.deliveries[d].phase.Authorizing? && s.deliveries[d].message.order < |s.orders|
    requires s.deliveries[d].phase.call < |s.authCalls|
    requires s.authCalls[s.deliveries[d].phase.call].phase == Replied(p)
    ensures var o := s.deliveries[d].message.order;
            DoPaymentWrite(DoAuthorizeReturns(s, d), d) == SetHandler(s, d, Handled).(
              orders := s.orders[o := s.orders[o].(status := PAID, payment := Some(p))],
              paid := s.paid + [o],
              overruns := if s.orders[o].status == CANCELLED then s.overruns + [PaidAfterCancel(o)] else s.overruns)
  {
    hide SameBooks, NoNewPayer;
    var writing := s.deliveries[d].(phase := Writing(p));
    assert s.deliveries[d := writing][d := writing.(phase := Handled)]
        == s.deliveries[d := s.deliveries[d].(phase := Handled)];
  }

  lemma HandlerSteps(s: State, d: nat, a: nat, reached: bool)
    ensures Run(s, HandlerEvents(d, a, reached)) ==
            var begun := AfterTransaction(s, d);
            var replied := if reached then AfterPayment(begun, d, a) else begun;
            DoAck(DoReroute(DoAuthorizeFails(replied, d), d), d)
  {
    hide Run, Step, AfterTransaction, AfterPayment, DoAuthorizeFails, DoReroute, DoAck;
    var first := [WorkerBegin(d), WorkerCommit(d), StartAuthorize(d)];
    var middle := if reached then [ServerFind(a), ServerInsert(a), AuthorizeReturns(d), PaymentWrite(d)] else [];
    var last := [AuthorizeFails(d), Reroute(d), Ack(d)];
    assert HandlerEvents(d, a, reached) == first + middle + last;
    RunConcat(s, first + middle, last);
    RunConcat(s, first, middle);
    TransactionSteps(s, d);
    if reached {
      PaymentSteps(Run(s, first), d, a);
    } else {
      Empty(Run(s, first));
    }
    LastSteps(Run(s, first + middle), d);
  }

  lemma TransactionSteps(s: State, d: nat)
    ensures Run(s, [WorkerBegin(d), WorkerCommit(d), StartAuthorize(d)]) == AfterTransaction(s, d)
  {
    hide Run, DoWorkerBegin, DoWorkerCommit, DoStartAuthorize;
    ThreeSteps(s, [WorkerBegin(d), WorkerCommit(d), StartAuthorize(d)]);
  }

  lemma ServerEvents(s: State, a: nat)
    ensures Step(s, ServerFind(a)) == DoServerFind(s, a) && Step(s, ServerInsert(a)) == DoServerInsert(s, a)
  {
    hide SameBooks, NoNewPayer, DoStartCreate, DoCheckKey, DoPrecheck, DoCreateTx, DoCreateTxFails, DoRecover,
         DoPublish, DoPublishFails, DoStartCancel, DoCancelGuard, DoCancelLoad, DoCancelCommit, DoCancelFails,
         DoDeliver, DoWorkerBegin, DoWorkerCommit, DoWorkerFails, DoStartAuthorize, DoAuthorizeFails,
         DoAuthorizeReturns, DoPaymentWrite, DoReroute, DoAck, DoAckFails, DoCrash, DoRedeliver, DoServerFind,
         DoServerInsert, DoServerFails, DoAdminWrite;
  }

  lemma PaymentEvents(s: State, d: nat)
    ensures Step(s, AuthorizeReturns(d)) == DoAuthorizeReturns(s, d) && Step(s, PaymentWrite(d)) == DoPaymentWrite(s, d)
  {
    hide SameBooks, NoNewPayer, DoStartCreate, DoCheckKey, DoPrecheck, DoCreateTx, DoCreateTxFails, DoRecover,
         DoPublish, DoPublishFails, DoStartCancel, DoCancelGuard, DoCancelLoad, DoCancelCommit, DoCancelFails,
         DoDeliver, DoWorkerBegin, DoWorkerCommit, DoWorkerFails, DoStartAuthorize, DoAuthorizeFails,
         DoAuthorizeReturns, DoPaymentWrite, DoReroute, DoAck, DoAckFails, DoCrash, DoRedeliver, DoServerFind,
         DoServerInsert, DoServerFails, DoAdminWrite;
  }

  lemma ClosingEvents(s: State, d: nat)
    ensures Step(s, AuthorizeFails(d)) == DoAuthorizeFails(s, d)
    ensures Step(s, Reroute(d)) == DoReroute(s, d) && Step(s, Ack(d)) == DoAck(s, d)
  {
    hide SameBooks, NoNewPayer, DoStartCreate, DoCheckKey, DoPrecheck, DoCreateTx, DoCreateTxFails, DoRecover,
         DoPublish, DoPublishFails, DoStartCancel, DoCancelGuard, DoCancelLoad, DoCancelCommit, DoCancelFails,
         DoDeliver, DoWorkerBegin, DoWorkerCommit, DoWorkerFails, DoStartAuthorize, DoAuthorizeFails,
         DoAuthorizeReturns, DoPaymentWrite, DoReroute, DoAck, DoAckFails, DoCrash, DoRedeliver, DoServerFind,
         DoServerInsert, DoServerFails, DoAdminWrite;
  }

  lemma PaymentSteps(s: State, d: nat, a: nat)
    ensures Run(s, [ServerFind(a), ServerInsert(a), AuthorizeReturns(d), PaymentWrite(d)]) == AfterPayment(s, d, a)
  {
    hide Run, Step, DoServerFind, DoServerInsert, DoAuthorizeReturns, DoPaymentWrite;
    FourSteps(s, [ServerFind(a), ServerInsert(a), AuthorizeReturns(d), PaymentWrite(d)]);
    ServerEvents(s, a);
    ServerEvents(DoServerFind(s, a), a);
    PaymentEvents(DoServerInsert(DoServerFind(s, a), a), d);
    PaymentEvents(DoAuthorizeReturns(DoServerInsert(DoServerFind(s, a), a), d), d);
  }

  lemma LastSteps(s: State, d: nat)
    ensures Run(s, [AuthorizeFails(d), Reroute(d), Ack(d)]) == DoAck(DoReroute(DoAuthorizeFails(s, d), d), d)
  {
    hide Run, Step, DoAuthorizeFails, DoReroute, DoAck;
    ThreeSteps(s, [AuthorizeFails(d), Reroute(d), Ack(d)]);
    ClosingEvents(s, d);
    ClosingEvents(DoAuthorizeFails(s, d), d);
    ClosingEvents(DoReroute(DoAuthorizeFails(s, d), d), d);
  }

  lemma ThreeSteps(s: State, es: seq<Event>)
    requires |es| == 3
    ensures Run(s, es) == Step(Step(Step(s, es[0]), es[1]), es[2])
  {
    hide Step;
    Then(s, es[..2], es[2]);
    Then(s, es[..1], es[1]);
    Then(s, [], es[0]);
    assert es == es[..2] + [es[2]] && es[..2] == es[..1] + [es[1]] && es[..1] == [] + [es[0]];
  }

  /** What a handler that has finished processing still does: it acks. */
  lemma HandledOnlyAcks(s: State, d: nat)
    requires d < |s.deliveries| && s.deliveries[d].phase.Handled?
    ensures DoStartAuthorize(s, d) == DoAuthorizeReturns(s, d) == DoPaymentWrite(s, d)
         == DoAuthorizeFails(s, d) == DoReroute(s, d) == s
  {
  }

  /** What a handler that caught an error still does: it reroutes and acks. */
  lemma ErroredOnlyReroutes(s: State, d: nat)
    requires d < |s.deliveries| && s.deliveries[d].phase.Errored?
    ensures DoStartAuthorize(s, d) == DoAuthorizeReturns(s, d) == DoPaymentWrite(s, d) == DoAuthorizeFails(s, d) == s
  {
  }

  lemma FailsWhileAuthorizing(s: State, d: nat, a: nat)
    requires d < |s.deliveries| && s.deliveries[d].phase == Authorizing(a)
    ensures DoAuthorizeFails(s, d) == SetHandler(s, d, Errored)
  {
  }

  lemma RefusedStaysAuthorizing(s: State, d: nat, a: nat)
    requires d < |s.deliveries| && s.deliveries[d].phase == Authorizing(a)
    requires a < |s.authCalls| && !s.authCalls[a].phase.Replied?
    ensures DoPaymentWrite(DoAuthorizeReturns(s, d), d) == s
  {
  }

  /** No authorization call at this position: the payments service sees nothing. */
  lemma NoCallNoService(s: State, a: nat)
    requires a >= |s.authCalls|
    ensures DoServerFind(s, a) == DoServerInsert(s, a) == s
  {
  }

  function IdSet(ids: seq<ProductId>): set<ProductId> {
    set p | p in ids
  }

  lemma LockOneMore(table: Table, ids: seq<ProductId>, i: nat)
    requires i < |ids|
    ensures LockedRows(table, IdSet(ids[..i + 1])) ==
            var rows := LockedRows(table, IdSet(ids[..i]));
            if ids[i] in table && !table[ids[i]].deleted then rows[ids[i] := table[ids[i]]] else rows
  {
    assert ids[..i + 1] == ids[..i] + [ids[i]];
  }

  lemma MirrorsOneMore(entities: map<ProductId, Product>, rows: Table, entity: Product, row: Row)
    requires Mirrors(entities, rows)
    requires entity.stock == row.stock && entity.active == row.active && entity.price == row.price
    ensures Mirrors(entities[entity.id := entity], rows[entity.id := row])
  {
  }

  class Shop {
    // PostgreSQL and RabbitMQ
    var products: Table
    var orders: seq<Order>
    var processed: set<ProcessedRow>
    var payments: seq<Payment>
    var queue: multiset<Message>
    var dlq: multiset<Message>
    var published: seq<Message>
    const paymentsDisabled: bool
    // call frames and history
    ghost var creates: seq<CreateCall>
    ghost var cancels: seq<CancelCall>
    ghost var deliveries: seq<Delivery>
    ghost var authCalls: seq<AuthCall>
    ghost var paid: seq<OrderId>
    ghost var overruns: seq<Overrun>
    ghost var touched: set<ProductId>

    ghost function Now(): State
      reads this
    {
      State(products, orders, processed, payments, queue, dlq, paymentsDisabled,
            creates, cancels, deliveries, authCalls, published, paid, overruns, touched)
    }

    constructor (products: Table, paymentsDisabled: bool)
      ensures Initial(Now()) && this.products == products && this.paymentsDisabled == paymentsDisabled
    {
      this.products, this.paymentsDisabled := products, paymentsDisabled;
      orders, processed, payments := [], {}, [];
      queue, dlq, published := multiset{}, multiset{}, [];
      creates, cancels, deliveries, authCalls := [], [], [], [];
      paid, overruns, touched := [], [], {};
    }

    // ---- order-stock.service.ts and product.repository.ts

    /** `[...new Set(items.map((item) => item.productId))]` */
    static method UniqueProductIds(items: seq<Item>) returns (ids: seq<ProductId>)
      ensures NoRepeats(ids)
      ensures forall p :: p in ids <==> p in ProductIds(items)
    {
      ids := [];
      for i := 0 to |items|
        invariant NoRepeats(ids)
        invariant forall p :: p in ids <==> exists j :: 0 <= j < i && items[j].product == p
      {
        if items[i].product !in ids {
          ids := ids + [items[i].product];
        }
      }
    }

    method FindByIdsWithLock(ids: seq<ProductId>) returns (entities: map<ProductId, Product>)
      ensures Indexed(entities) && forall p :: p in entities ==> fresh(entities[p])
      ensures Mirrors(entities, LockedRows(products, IdSet(ids)))
    {
      entities := map[];
      for i := 0 to |ids|
        invariant Indexed(entities) && forall p :: p in entities ==> fresh(entities[p])
        invariant Mirrors(entities, LockedRows(products, IdSet(ids[..i])))
      {
        var p := ids[i];
        LockOneMore(products, ids, i);
        hide LockedRows, IdSet, Mirrors;
        if p in products && !products[p].deleted {
          var entity := new Product(p, products[p]);
          MirrorsOneMore(entities, LockedRows(products, IdSet(ids[..i])), entity, products[p]);
          entities := entities[p := entity];
        }
      }
      assert ids[..|ids|] == ids;
    }

    method SaveProducts(entities: map<ProductId, Product>)
      requires Indexed(entities) && entities.Keys <= products.Keys
      modifies this`products
      ensures products == map p | p in old(products) ::
                if p in entities then old(products[p]).(stock := entities[p].stock) else old(products[p])
    {
      products := map p | p in products ::
        if p in entities then products[p].(stock := entities[p].stock) else products[p];
    }

    method DecrementAndSave(items: seq<Item>, entities: map<ProductId, Product>)
      requires Indexed(entities) && Mirrors(entities, LockedRows(products, ProductIds(items)))
      requires forall i :: 0 <= i < |items| ==> items[i].product in entities
      modifies this`products, entities.Values
      ensures products == Taken(old(products), items)
    {
      DecrementStock(items, entities);
      SaveProducts(entities);
      SavingLockedRows(old(products), items);
    }

    method LockValidateAndDecrement(items: seq<Item>) returns (r: Result<map<ProductId, Product>, StockError>)
      modifies this`products
      ensures var rows := LockedRows(old(products), ProductIds(items));
              if FirstRejection(items, rows).Some? then
                && r == Err(FirstRejection(items, rows).value) && products == old(products)
                && !InStock(items, old(products))
              else
                && r.Ok? && r.value.Keys == rows.Keys && (forall p :: p in rows ==> r.value[p].price == rows[p].price)
                && products == Taken(old(products), items) && InStock(items, old(products))
                && products.Keys == old(products).Keys
                && forall p :: p in products ==>
                     products[p] == old(products)[p].(stock := old(products)[p].stock - Quantity(items, p))
    {
      InStockIff(items, products);
      if InStock(items, products) {
        TakenRows(items, products);
      }
      var ids := UniqueProductIds(items);
      assert IdSet(ids) == ProductIds(items);
      var entities := FindByIdsWithLock(ids);
      ghost var rows := LockedRows(products, ProductIds(items));
      var error := ValidateStockAndAvailability(items, entities, rows);
      if error.Some? {
        return Err(error.value);
      }
      assert forall i :: 0 <= i < |items| ==> Rejection(items[i], rows).None?;
      hide FirstRejection, Taken, Quantity, NoRepeats, ProductIds;
      DecrementAndSave(items, entities);
      r := Ok(entities);
    }

    method RestoreAndSave(items: seq<Item>, entities: map<ProductId, Product>)
      requires Indexed(entities) && Mirrors(entities, LockedRows(products, ProductIds(items)))
      modifies this`products, entities.Values
      ensures products == GivenBack(old(products), items)
    {
      RestoreStock(items, entities);
      SaveProducts(entities);
      SavingLockedRows(old(products), items);
    }

    method LockAndRestore(items: seq<Item>)
      modifies this`products
      ensures products == GivenBack(old(products), items)
      ensures products.Keys == old(products).Keys
      ensures forall p :: p in products ==>
                products[p] == if old(products)[p].deleted then old(products)[p]
                               else old(products)[p].(stock := old(products)[p].stock + Quantity(items, p))
    {
      GivenBackRows(items, products);
      hide GivenBack, Quantity, NoRepeats, LockedRows;
      var ids := UniqueProductIds(items);
      assert IdSet(ids) == ProductIds(items);
      var entities := FindByIdsWithLock(ids);
      RestoreAndSave(items, entities);
    }

    // ---- orders-command.service.ts

    static method ValidateOrderItems(items: seq<Item>) returns (ok: bool)
      ensures ok <==> ValidQuantities(items)
      ensures ok <==> forall i :: 0 <= i < |items| ==> 1 <= items[i].quantity <= 1000
    {
      for i := 0 to |items|
        invariant forall j :: 0 <= j < i ==> 1 <= items[j].quantity <= MAX_ORDER_QUANTITY
      {
        if items[i].quantity <= 0 {
          return false;
        }
        if items[i].quantity > MAX_ORDER_QUANTITY {
          return false;
        }
      }
      ok := true;
    }

    /** A scan of the unique index on `orders.idempotency_key`. */
    method FindByIdempotencyKey(key: Key) returns (r: Option<OrderId>)
      ensures r == FindKey(orders, key)
    {
      var n := |orders|;
      assert orders[..n] == orders;
      while n > 0
        invariant 0 <= n <= |orders|
        invariant FindKey(orders[..n], key) == FindKey(orders, key)
      {
        if orders[n - 1].key == Some(key) {
          return Some(n - 1);
        }
        assert orders[..n][..n - 1] == orders[..n - 1];
        n := n - 1;
      }
      r := None;
    }

    method BeginCreate(user: UserId, key: Option<Key>, items: seq<Item>) returns (ok: bool)
      modifies this`creates
      ensures Now() == DoStartCreate(old(Now()), user, key, items)
      ensures ok <==> ValidQuantities(items)
      ensures creates == old(creates) + [CreateCall(user, key, items, if ok then Started else Thrown)]
    {
      ok := ValidateOrderItems(items);
      creates := creates + [CreateCall(user, key, items, if ok then Started else Thrown)];
    }

    method CheckIdempotency(ghost c: nat, key: Option<Key>) returns (r: Option<OrderId>)
      requires Creating(Now(), c, Started) && creates[c].key == key
      modifies this`creates
      ensures Now() == DoCheckKey(old(Now()), c)
      ensures r == if key.None? then None else FindKey(orders, key.value)
      ensures creates == old(creates)[c := old(creates)[c].(phase := if r.Some? then Returned(r.value) else KeyFree)]
    {
      r := None;
      if key.Some? {
        r := FindByIdempotencyKey(key.value);
      }
      creates := creates[c := creates[c].(phase := if r.Some? then Returned(r.value) else KeyFree)];
    }

    method ValidateExist(ghost c: nat, items: seq<Item>) returns (ok: bool)
      requires Creating(Now(), c, KeyFree) && creates[c].items == items
      modifies this`creates
      ensures Now() == DoPrecheck(old(Now()), c)
      ensures ok <==> LockedRows(products, ProductIds(items)).Keys == ProductIds(items)
      ensures creates == old(creates)[c := old(creates)[c].(phase := if ok then Prechecked else Thrown)]
    {
      var ids := UniqueProductIds(items);
      ok := true;
      for i := 0 to |ids|
        invariant ok <==> forall j :: 0 <= j < i ==> ids[j] in products && !products[ids[j]].deleted
      {
        if !(ids[i] in products && !products[ids[i]].deleted) {
          ok := false;
        }
      }
      ghost var found := LockedRows(products, ProductIds(items)).Keys;
      if ok {
        forall p | p in ProductIds(items) ensures p in found {
          assert p in ids;
        }
      } else {
        var j :| 0 <= j < |ids| && !(ids[j] in products && !products[ids[j]].deleted);
        assert ids[j] in ProductIds(items) && ids[j] !in found;
      }
      creates := creates[c := creates[c].(phase := if ok then Prechecked else Thrown)];
    }

    static method CreateOrderItems(items: seq<Item>, entities: map<ProductId, Product>, ghost rows: Table)
      returns (lines: seq<Line>)
      requires entities.Keys == rows.Keys && forall p :: p in rows ==> entities[p].price == rows[p].price
      requires forall i :: 0 <= i < |items| ==> items[i].product in rows
      ensures lines == PricedLines(items, rows)
      ensures |lines| == |items|
      ensures forall i :: 0 <= i < |items| ==>
                lines[i].item == items[i] && lines[i].price == entities[items[i].product].price
    {
      lines := [];
      for i := 0 to |items|
        invariant |lines| == i && forall j :: 0 <= j < i ==> lines[j] == Line(items[j], rows[items[j].product].price)
      {
        lines := lines + [Line(items[i], entities[items[i].product].price)];
      }
    }

    /** One transaction: a unique violation on the order row or a time-out rolls the stock back. */
    method ExecuteOrderTransaction(ghost c: nat, user: UserId, key: Option<Key>, items: seq<Item>, faults: Faults)
      returns (r: Result<OrderId, CreateError>)
      requires Creating(Now(), c, Prechecked)
      requires creates[c].user == user && creates[c].key == key && creates[c].items == items
      modifies this`products, this`orders, this`creates
      ensures Now() == TransactionStep(old(Now()), c, faults)
      ensures creates == old(creates)[c := old(creates)[c].(
                phase := match r case Ok(o) => Committed(o) case Err(e) => TxFailed(e))]
    {
      hide DoCreateTx, Taken, ProductIds, FindKey, PricedLines, LockedRows, FirstRejection, SameBooks, NoNewPayer,
           InStock, Quantity, KeyTaken;
      RefusedTransaction(Now(), c);
      var savepoint := products;
      var taken := LockValidateAndDecrement(items);
      if taken.Err? {
        creates := creates[c := creates[c].(phase := TxFailed(OtherError))];
        return Err(OtherError);
      }
      if faults.timesOut {
        products := savepoint;
        creates := creates[c := creates[c].(phase := TxFailed(OtherError))];
        return Err(OtherError);
      }
      if key.Some? {
        var existing := FindByIdempotencyKey(key.value);
        if existing.Some? {
          products := savepoint;
          creates := creates[c := creates[c].(phase := TxFailed(UniqueViolation))];
          return Err(UniqueViolation);
        }
      }
      AcceptedTransaction(old(Now()), c);
      var lines := CreateOrderItems(items, taken.value, LockedRows(old(products), ProductIds(items)));
      r := Ok(|orders|);
      orders := orders + [Order(user, key, lines, PENDING, None)];
      creates := creates[c := creates[c].(phase := Committed(r.value))];
    }

    // ---- pg-error-mapper.service.ts

    method HandleCreationError(ghost c: nat, error: CreateError, user: UserId, key: Option<Key>)
      returns (r: Option<OrderId>)
      requires Creating(Now(), c, TxFailed(error)) && creates[c].user == user && creates[c].key == key
      modifies this`creates
      ensures Now() == DoRecover(old(Now()), c)
      ensures r.Some? ==> error == UniqueViolation && OwnOrder(orders, creates[c], r.value)
      ensures r.None? && error == UniqueViolation && KeysUnique(orders) ==>
                forall o :: 0 <= o < |orders| ==> !OwnOrder(orders, creates[c], o)
      ensures creates == old(creates)[c := old(creates)[c].(phase := if r.Some? then Returned(r.value) else Thrown)]
    {
      r := None;
      if error == UniqueViolation && key.Some? {
        var existing := FindByIdempotencyKey(key.value);
        if existing.Some? && orders[existing.value].user == user {
          r := existing;
        }
      }
      creates := creates[c := creates[c].(phase := if r.Some? then Returned(r.value) else Thrown)];
    }

    // ---- order-publisher.service.ts

    /** False when the broker does not take the message and `publish` throws. */
    method PublishOrderProcessing(ghost c: nat, order: OrderId, key: Option<Key>, faults: Faults) returns (ok: bool)
      requires Creating(Now(), c, Committed(order)) && creates[c].key == key
      modifies this`queue, this`published, this`creates
      ensures Now() == PublishStep(old(Now()), c, faults) && ok == !faults.brokerDown
      ensures creates == old(creates)[c := old(creates)[c].(phase := if ok then Returned(order) else Thrown)]
    {
      if faults.brokerDown {
        creates := creates[c := creates[c].(phase := Thrown)];
        return false;
      }
      var id := |published|;
      var message := Message(id, order, if key.Some? then ClientKey(key.value) else Random(id), 1);
      queue := queue + multiset{message};
      published := published + [message];
      creates := creates[c := creates[c].(phase := Returned(order))];
      ok := true;
    }

    /** orders-command.service.ts, `createOrder`: `None` stands for a thrown exception. */
    method CreateOrder(user: UserId, key: Option<Key>, items: seq<Item>, faults: Faults) returns (r: Option<OrderId>)
      modifies this
      ensures Now() == Run(old(Now()), CreateEvents(user, key, items, |old(creates)|, faults))
      ensures |creates| == |old(creates)| + 1
      ensures creates[|old(creates)|].phase == if r.Some? then Returned(r.value) else Thrown
    {
      hide Run, DoStartCreate, DoCheckKey, DoPrecheck, DoRecover, TransactionStep, PublishStep, CreateEvents;
      CreateSteps(Now(), user, key, items, |creates|, faults);
      r := CreateOrderSteps(user, key, items, faults);
    }

    method CreateOrderSteps(user: UserId, key: Option<Key>, items: seq<Item>, faults: Faults)
      returns (r: Option<OrderId>)
      modifies this
      ensures var c := |old(creates)|;
              && Now() == PublishStep(DoRecover(TransactionStep(DoPrecheck(DoCheckKey(
                            DoStartCreate(old(Now()), user, key, items), c), c), c, faults), c), c, faults)
              && |creates| == c + 1 && creates[c].phase == if r.Some? then Returned(r.value) else Thrown
    {
      hide DoStartCreate, DoCheckKey, DoPrecheck, DoRecover, TransactionStep, PublishStep, ValidQuantities, FindKey,
           LockedRows, SameBooks, NoNewPayer;
      ghost var c := |creates|;
      var ok := BeginCreate(user, key, items);
      if !ok {
        StepsOver(Now(), c, faults);
        return None;
      }
      var existing := CheckIdempotency(c, key);
      if existing.Some? {
        StepsOver(Now(), c, faults);
        return existing;
      }
      var exist := ValidateExist(c, items);
      if !exist {
        StepsOver(Now(), c, faults);
        return None;
      }
      var created := ExecuteOrderTransaction(c, user, key, items, faults);
      if created.Ok? {
        CallCommitted(Now(), c);
        var sent := PublishOrderProcessing(c, created.value, key, faults);
        r := if sent then Some(created.value) else None;
      } else {
        r := HandleCreationError(c, created.error, user, key);
        StepsOver(Now(), c, faults);
      }
    }

    // ---- orders-command.service.ts, cancellation

    method CancelOrder(user: UserId, o: OrderId) returns (ok: bool)
      modifies this`products, this`orders, this`cancels
      ensures Now() == Run(old(Now()), CancelEvents(user, o, |old(cancels)|))
      ensures ok <==> Cancellable(old(Now()), user, o)
    {
      hide Run, GivenBack;
      ghost var s := Now();
      if o >= |orders| || orders[o].user != user {
        ok := false;
      } else if orders[o].status == CANCELLED {
        ok := false;
      } else if orders[o].status == CREATED {
        ok := false;
      } else {
        ok := true;
      }
      if !ok {
        RefusedCancel(s, user, o);
        cancels := cancels + [CancelCall(user, o, CancelThrown)];
        return;
      }
      UninterruptedCancel(s, user, o);
      var order := orders[o];
      LockAndRestore(ItemsOf(order.lines));
      orders := orders[o := order.(status := CANCELLED)];
      cancels := cancels + [CancelCall(user, o, CancelDone)];
    }

    // ---- order-processing.service.ts

    ghost predicate Idle(d: nat, m: Message)
      reads this
    {
      d < |deliveries| && deliveries[d] == Delivery(m, true, Received) && !InsertBlocked(deliveries, d)
    }

    ghost predicate HandlerIs(d: nat, m: Message, phase: HandlerPhase)
      reads this
    {
      d < |deliveries| && deliveries[d] == Delivery(m, true, phase)
    }

    method RunTransaction(ghost d: nat, m: Message) returns (r: Processing)
      requires Idle(d, m)
      modifies this`processed, this`orders, this`deliveries
      ensures Now() == DoWorkerCommit(DoWorkerBegin(old(Now()), d), d)
      ensures HandlerIs(d, m, match r case Skipped => Handled case Failed => Errored case Advanced => ToAuthorize)
      ensures r.Advanced? ==> m.order < |orders|
    {
      hide DoWorkerBegin, DoWorkerCommit, InsertBlocked, Duplicate, SameBooks, NoNewPayer;
      UninterruptedTransaction(Now(), d);
      if Duplicate(processed, m) {
        deliveries := deliveries[d := Delivery(m, true, Handled)];
        return Skipped;
      }
      if m.order >= |orders| {
        deliveries := deliveries[d := Delivery(m, true, Errored)];
        return Failed;
      }
      processed := processed + {ProcessedRow(m.id, m.correlation, m.order)};
      var order := orders[m.order];
      if order.status != PENDING {
        deliveries := deliveries[d := Delivery(m, true, Handled)];
        return Skipped;
      }
      orders := orders[m.order := order.(status := PROCESSED)];
      r := if paymentsDisabled || order.payment.Some? then Skipped else Advanced;
      deliveries := deliveries[d := Delivery(m, true, if r.Skipped? then Handled else ToAuthorize)];
    }

    // ---- payments.service.ts

    method FindByOrderId(o: OrderId) returns (r: Option<PaymentId>)
      ensures r == FindPayment(payments, o)
    {
      var n := |payments|;
      assert payments[..n] == payments;
      while n > 0
        invariant 0 <= n <= |payments|
        invariant FindPayment(payments[..n], o) == FindPayment(payments, o)
      {
        if payments[n - 1].order == o {
          return Some(n - 1);
        }
        assert payments[..n][..n - 1] == payments[..n - 1];
        n := n - 1;
      }
      r := None;
    }

    /** `authorize`: `None` stands for an RPC error or a refused insert. */
    method Authorize(ghost a: nat, o: OrderId, amount: int) returns (r: Option<PaymentId>)
      requires a < |authCalls| && authCalls[a] == AuthCall(o, amount, Sent)
      modifies this`payments, this`authCalls
      ensures Now() == DoServerInsert(DoServerFind(old(Now()), a), a)
      ensures authCalls == old(authCalls)[a := AuthCall(o, amount, if r.Some? then Replied(r.value) else Refused)]
      ensures r.Some? ==> r.value < |payments| && payments[r.value].order == o
      ensures |payments| <= |old(payments)| + 1 && old(payments) <= payments
    {
      hide FindPayment, SameBooks, NoNewPayer, StoredAmount, FitsColumn;
      if amount <= 0 {
        authCalls := authCalls[a := AuthCall(o, amount, Refused)];
        return None;
      }
      r := FindByOrderId(o);
      if r.Some? {
        authCalls := authCalls[a := AuthCall(o, amount, Replied(r.value))];
        return;
      }
      ghost var found := authCalls[a := AuthCall(o, amount, FoundNone)];
      if !FitsColumn(StoredAmount(amount)) {
        authCalls := authCalls[a := AuthCall(o, amount, Refused)];
        assert found[a := AuthCall(o, amount, Refused)] == authCalls;
        return None;
      }
      r := Some(|payments|);
      payments := payments + [Payment(o, StoredAmount(amount))];
      authCalls := authCalls[a := AuthCall(o, amount, Replied(r.value))];
      assert found[a := AuthCall(o, amount, Replied(r.value))] == authCalls;
    }

    // ---- order-processing.service.ts, payment

    method SendAuthorize(ghost d: nat, m: Message) returns (amount: int)
      requires HandlerIs(d, m, ToAuthorize) && m.order < |orders|
      modifies this`deliveries, this`authCalls
      ensures Now() == DoStartAuthorize(old(Now()), d)
      ensures HandlerIs(d, m, Authorizing(|old(authCalls)|))
      ensures authCalls == old(authCalls) + [AuthCall(m.order, amount, Sent)]
    {
      amount := SentCents(orders[m.order].lines);
      deliveries := deliveries[d := Delivery(m, true, Authorizing(|authCalls|))];
      authCalls := authCalls + [AuthCall(m.order, amount, Sent)];
    }

    method WritePayment(ghost d: nat, ghost a: nat, m: Message, p: PaymentId)
      requires HandlerIs(d, m, Authorizing(a)) && m.order < |orders|
      requires a < |authCalls| && authCalls[a].phase == Replied(p)
      modifies this`orders, this`deliveries, this`paid, this`overruns
      ensures Now() == DoPaymentWrite(DoAuthorizeReturns(old(Now()), d), d)
      ensures HandlerIs(d, m, Handled)
    {
      hide SameBooks, NoNewPayer, DoPaymentWrite, DoAuthorizeReturns;
      WriteAfterReturn(Now(), d, p);
      overruns := if orders[m.order].status == CANCELLED then overruns + [PaidAfterCancel(m.order)] else overruns;
      orders := orders[m.order := orders[m.order].(payment := Some(p), status := PAID)];
      paid := paid + [m.order];
      deliveries := deliveries[d := Delivery(m, true, Handled)];
    }

    /** `authorizePayment`; `ok` is false when an exception leaves it. */
    method AuthorizePayment(ghost d: nat, m: Message, reached: bool) returns (ok: bool)
      requires HandlerIs(d, m, ToAuthorize) && m.order < |orders|
      modifies this`orders, this`deliveries, this`authCalls, this`payments, this`paid, this`overruns
      ensures var begun := DoStartAuthorize(old(Now()), d);
              Now() == DoAuthorizeFails(if reached then AfterPayment(begun, d, |old(authCalls)|) else begun, d)
      ensures HandlerIs(d, m, if ok then Handled else Errored)
    {
      hide DoStartAuthorize, DoServerFind, DoServerInsert, DoAuthorizeReturns, DoPaymentWrite, DoAuthorizeFails,
           SameBooks, NoNewPayer, SentCents, FindPayment;
      ghost var a := |authCalls|;
      var amount := SendAuthorize(d, m);
      if !reached {
        FailsWhileAuthorizing(Now(), d, a);
        deliveries := deliveries[d := Delivery(m, true, Errored)];
        return false;
      }
      var payment := Authorize(a, m.order, amount);
      if payment.Some? {
        WritePayment(d, a, m, payment.value);
        HandledOnlyAcks(Now(), d);
        return true;
      }
      RefusedStaysAuthorizing(Now(), d, a);
      FailsWhileAuthorizing(Now(), d, a);
      deliveries := deliveries[d := Delivery(m, true, Errored)];
      ok := false;
    }

    /** `processOrderMessage`; `ok` is false when an exception leaves it. */
    method ProcessOrderMessage(ghost d: nat, m: Message, reached: bool) returns (ok: bool)
      requires Idle(d, m)
      modifies this`processed, this`orders, this`deliveries, this`authCalls, this`payments, this`paid, this`overruns
      ensures var a := |old(authCalls)|;
              var begun := AfterTransaction(old(Now()), d);
              Now() == DoAuthorizeFails(if reached then AfterPayment(begun, d, a) else begun, d)
      ensures HandlerIs(d, m, if ok then Handled else Errored)
    {
      hide DoWorkerBegin, DoWorkerCommit, DoStartAuthorize, DoAuthorizeFails, DoServerFind, DoServerInsert,
           DoAuthorizeReturns, DoPaymentWrite, InsertBlocked, SameBooks, NoNewPayer;
      ghost var a := |authCalls|;
      var r := RunTransaction(d, m);
      if r.Advanced? {
        ok := AuthorizePayment(d, m, reached);
      } else {
        if r.Skipped? {
          HandledOnlyAcks(Now(), d);
        } else {
          ErroredOnlyReroutes(Now(), d);
        }
        NoCallNoService(Now(), a);
        ok := r.Skipped?;
      }
    }

    // ---- orders-worker.service.ts

    method RetryMessage(m: Message)
      modifies this`queue
      ensures queue == old(queue) + multiset{m.(attempt := m.attempt + 1)}
    {
      var retry := m.(attempt := m.attempt + 1);
      queue := queue + multiset{retry};
    }

    method PublishToDlq(m: Message)
      modifies this`dlq
      ensures dlq == old(dlq) + multiset{m}
    {
      dlq := dlq + multiset{m};
    }

    method RerouteFailed(ghost d: nat, m: Message)
      requires HandlerIs(d, m, Errored)
      modifies this`queue, this`dlq, this`deliveries
      ensures Now() == DoReroute(old(Now()), d)
      ensures HandlerIs(d, m, Rerouted)
    {
      if m.attempt < MAX_RETRY_ATTEMPTS {
        RetryMessage(m);
      } else {
        PublishToDlq(m);
      }
      deliveries := deliveries[d := Delivery(m, true, Rerouted)];
    }

    method AckDelivery(ghost d: nat, m: Message)
      requires HandlerIs(d, m, Handled) || HandlerIs(d, m, Rerouted)
      modifies this`deliveries
      ensures Now() == DoAck(old(Now()), d)
    {
      deliveries := deliveries[d := Delivery(m, false, Finished)];
    }

    method HandleMessage(ghost d: nat, m: Message, reached: bool)
      requires Idle(d, m)
      modifies this
      ensures Now() == Run(old(Now()), HandlerEvents(d, |old(authCalls)|, reached))
    {
      hide Run, AfterTransaction, AfterPayment, DoAuthorizeFails, DoReroute, DoAck, InsertBlocked;
      HandlerSteps(Now(), d, |authCalls|, reached);
      var ok := ProcessOrderMessage(d, m, reached);
      if ok {
        HandledOnlyAcks(Now(), d);
        AckDelivery(d, m);
        return;
      }
      RerouteFailed(d, m);
      AckDelivery(d, m);
    }
  }
}
