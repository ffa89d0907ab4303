/** The guarantees of the order protocol, each for every run from an empty order book. */
module Theorems {
  import opened Common
  import opened Stock
  import opened Protocol
  import opened Amounts
  import opened Invariants
  import opened Ledger

  /** Authorization starts, is stored and is written back at most once per order, and an order's
      payment id names exactly the row that was stored for it, over the order's own total. */
  lemma AtMostOncePayment(s0: State, es: seq<Event>)
    requires Initial(s0)
    ensures var t := Run(s0, es);
            && (forall a, b :: 0 <= a < b < |t.authCalls| ==> t.authCalls[a].order != t.authCalls[b].order)
            && (forall p, q :: 0 <= p < q < |t.payments| ==> t.payments[p].order != t.payments[q].order)
            && NoRepeats(t.paid)
            && (forall o :: 0 <= o < |t.orders| && t.orders[o].payment.Some? ==>
                  var p := t.orders[o].payment.value;
                  p < |t.payments| && t.payments[p] == Payment(o, StoredAmount(SentCents(t.orders[o].lines))))
  {
    hide KeysUnique, CreatesOk, PublishedOk, QueuesOk, ProcessedOk, DeliveriesOk, PayersOk, CancelsOk, NothingLost;
    EveryRunKeepsInv(s0, es);
  }

  ghost predicate CopyInSystem(s: State, o: OrderId) {
    || (exists m :: m in s.queue && m.order == o)
    || (exists m :: m in s.dlq && m.order == o)
    || (exists d :: 0 <= d < |s.deliveries| && s.deliveries[d].unacked && s.deliveries[d].message.order == o)
  }

  /** A published order that is still PENDING has a message in the queue, unacked or in the DLQ. */
  lemma NoMessageLost(s0: State, es: seq<Event>, o: OrderId)
    requires Initial(s0) && o < |Run(s0, es).orders|
    requires IsPublished(Run(s0, es).published, o) && Run(s0, es).orders[o].status == PENDING
    ensures CopyInSystem(Run(s0, es), o)
  {
    hide KeysUnique, CreatesOk, ProcessedOk, PayersOk, AuthCallsOk, PaymentsOk, OrdersOk, CancelsOk, PaidOk;
    EveryRunKeepsInv(s0, es);
    var t := Run(s0, es);
    var i :| 0 <= i < |t.published| && t.published[i].order == o;
    assert HasCopy(t.queue, t.dlq, t.deliveries, i);
    CopyOfOrder(t, i);
  }

  lemma CopyOfOrder(s: State, i: MessageId)
    requires QueuesOk(s.queue, s.dlq, s.published) && DeliveriesOk(s.deliveries, s.published, s.processed, s.orders)
    requires i < |s.published| && HasCopy(s.queue, s.dlq, s.deliveries, i)
    ensures CopyInSystem(s, s.published[i].order)
  {
    var o := s.published[i].order;
    if m :| m in s.queue && m.id == i {
      assert m.order == o;
    } else if m :| m in s.dlq && m.id == i {
      assert m.order == o;
    } else {
      var d :| 0 <= d < |s.deliveries| && Answers(s.deliveries[d], i);
      assert s.deliveries[d].message.order == o;
    }
  }

  /** What each order status says about the processed-message row and the payment. */
  lemma StatusInvariant(s0: State, es: seq<Event>, o: OrderId)
    requires Initial(s0) && o < |Run(s0, es).orders|
    ensures var t := Run(s0, es);
            && t.orders[o].status != CREATED
            && (t.orders[o].status in {PROCESSED, PAID} ==> OrderProcessed(t.processed, o))
            && (OrderProcessed(t.processed, o) ==> t.orders[o].status != PENDING)
            && (t.orders[o].status == PAID ==> t.orders[o].payment.Some?)
            && (t.orders[o].payment.Some? ==> t.orders[o].status in {PAID, CANCELLED})
  {
    hide KeysUnique, CreatesOk, PublishedOk, QueuesOk, DeliveriesOk, PayersOk, AuthCallsOk, PaymentsOk, CancelsOk,
         PaidOk, NothingLost;
    EveryRunKeepsInv(s0, es);
  }

  /** Orders are never dropped, keep owner, key and lines, and never return to PENDING. */
  lemma NeverPendingAgain(s0: State, es: seq<Event>, fs: seq<Event>, o: OrderId)
    requires Initial(s0) && o < |Run(s0, es).orders|
    ensures var early, late := Run(s0, es), Run(s0, es + fs);
            && o < |late.orders| && SameIdentity(early.orders[o], late.orders[o])
            && (early.orders[o].status != PENDING ==> late.orders[o].status != PENDING)
  {
    EveryRunKeepsInv(s0, es);
    hide Inv;
    RunConcat(s0, es, fs);
    RunEvolves(Run(s0, es), fs);
  }

  predicate SameKeyReturned(b: CreateCall, c: CreateCall) {
    b.key.Some? && b.key == c.key && b.phase.Returned? && c.phase.Returned?
  }

  /** One key, one order: for any interleaving of create calls, whoever makes them. */
  lemma IdempotentCreation(s0: State, es: seq<Event>)
    requires Initial(s0)
    ensures var t := Run(s0, es);
            && (forall i, j :: 0 <= i < j < |t.orders| && t.orders[i].key.Some? ==> t.orders[i].key != t.orders[j].key)
            && (forall b, c ::
                  (0 <= b < |t.creates| && 0 <= c < |t.creates| && SameKeyReturned(t.creates[b], t.creates[c])) ==>
                  t.creates[b].phase.order == t.creates[c].phase.order)
            && (forall c :: 0 <= c < |t.creates| && t.creates[c].phase.Returned? ==>
                  t.creates[c].phase.order < |t.orders| && t.orders[t.creates[c].phase.order].key == t.creates[c].key)
  {
    hide PublishedOk, QueuesOk, ProcessedOk, DeliveriesOk, PayersOk, AuthCallsOk, PaymentsOk, OrdersOk, CancelsOk,
         PaidOk, NothingLost;
    EveryRunKeepsInv(s0, es);
  }

  /** No order has the key. */
  predicate KeyUnused(orders: seq<Order>, key: Option<Key>) {
    key.Some? ==> forall o :: 0 <= o < |orders| ==> orders[o].key != key
  }

  predicate Acceptable(s: State, call: CreateCall) {
    InStock(call.items, s.products) && KeyUnused(s.orders, call.key)
  }

  /** The line is over the item, at the price that its own product has. */
  predicate PricedAs(line: Line, item: Item, products: Table) {
    line.item == item && item.product in products && line.price == products[item.product].price
  }

  /** The tables after a request has become an order: one new PENDING order over its items, each line at the
      price of its own product, and every product that is asked for is lower in stock. */
  predicate Placed(s: State, t: State, user: UserId, key: Option<Key>, items: seq<Item>) {
    && |t.orders| == |s.orders| + 1 && s.orders <= t.orders
    && t.orders[|s.orders|].user == user && t.orders[|s.orders|].key == key
    && t.orders[|s.orders|].status == PENDING && t.orders[|s.orders|].payment.None?
    && |t.orders[|s.orders|].lines| == |items|
    && (forall i :: 0 <= i < |items| ==> PricedAs(t.orders[|s.orders|].lines[i], items[i], s.products))
    && t.products.Keys == s.products.Keys
    && (forall p :: p in s.products ==>
          t.products[p] == s.products[p].(stock := s.products[p].stock - Quantity(items, p)))
    && t.processed == s.processed && t.payments == s.payments && t.dlq == s.dlq
    && t.deliveries == s.deliveries && t.cancels == s.cancels && t.authCalls == s.authCalls
    && t.overruns == s.overruns && t.paid == s.paid && t.paymentsDisabled == s.paymentsDisabled
  }

  lemma AcceptableIff(s: State, call: CreateCall)
    ensures Acceptable(s, call) <==>
            && FirstRejection(call.items, LockedRows(s.products, ProductIds(call.items))).None?
            && !UniqueViolated(s.orders, call.key)
  {
    InStockIff(call.items, s.products);
  }

  /** What the order transaction does when it is accepted. */
  lemma AcceptedTransaction(s: State, c: nat)
    requires Creating(s, c, Prechecked)
    requires FirstRejection(s.creates[c].items, LockedRows(s.products, ProductIds(s.creates[c].items))).None?
    requires !UniqueViolated(s.orders, s.creates[c].key)
    ensures var call, rows := s.creates[c], LockedRows(s.products, ProductIds(s.creates[c].items));
            && (forall i :: 0 <= i < |call.items| ==> call.items[i].product in rows)
            && DoCreateTx(s, c) == s.(
                 creates := s.creates[c := call.(phase := Committed(|s.orders|))],
                 products := Taken(s.products, call.items),
                 orders := s.orders + [Order(call.user, call.key, PricedLines(call.items, rows), PENDING, None)])
  {
    hide Taken, ProductIds, LockedRows, FindKey;
    var call := s.creates[c];
    var rows := LockedRows(s.products, ProductIds(call.items));
    assert forall i :: 0 <= i < |call.items| ==> Rejection(call.items[i], rows).None?;
  }

  /** ... and when a line or the unique index refuses it. */
  lemma RefusedTransaction(s: State, c: nat)
    requires Creating(s, c, Prechecked)
    ensures var call, rows := s.creates[c], LockedRows(s.products, ProductIds(s.creates[c].items));
            && (FirstRejection(call.items, rows).Some? ==>
                  DoCreateTx(s, c) == s.(creates := s.creates[c := call.(phase := TxFailed(OtherError))]))
            && (FirstRejection(call.items, rows).None? && UniqueViolated(s.orders, call.key) ==>
                  DoCreateTx(s, c) == s.(creates := s.creates[c := call.(phase := TxFailed(UniqueViolation))]))
  {
    hide Taken, ProductIds, LockedRows, FindKey, UniqueViolated, FirstRejection;
  }

  lemma OwnPrices(items: seq<Item>, products: Table)
    requires InStock(items, products)
    ensures var rows := LockedRows(products, ProductIds(items));
            && (forall i :: 0 <= i < |items| ==> items[i].product in rows)
            && (forall i :: 0 <= i < |items| ==> PricedAs(PricedLines(items, rows)[i], items[i], products))
            && ItemsOf(PricedLines(items, rows)) == items
  {
    PricedLinesItems(items, LockedRows(products, ProductIds(items)));
  }

  lemma AcceptedTx(s: State, c: nat)
    requires Creating(s, c, Prechecked) && Acceptable(s, s.creates[c])
    ensures var t := DoCreateTx(s, c);
            && Placed(s, t, s.creates[c].user, s.creates[c].key, s.creates[c].items)
            && ItemsOf(t.orders[|s.orders|].lines) == s.creates[c].items
            && t.queue == s.queue && t.published == s.published
            && t.creates == s.creates[c := s.creates[c].(phase := Committed(|s.orders|))]
  {
    hide DoCreateTx, Taken, PricedLines, LockedRows, ProductIds, FirstRejection, FindKey, Quantity, InStock, ItemsOf,
         PricedAs;
    var call := s.creates[c];
    AcceptableIff(s, call);
    AcceptedTransaction(s, c);
    TakenRows(call.items, s.products);
    OwnPrices(call.items, s.products);
  }

  lemma RefusedTx(s: State, c: nat)
    requires Creating(s, c, Prechecked) && !Acceptable(s, s.creates[c])
    ensures DoCreateTx(s, c) == s.(creates := s.creates[c := s.creates[c].(phase := TxFailed(
                                if InStock(s.creates[c].items, s.products) then UniqueViolation else OtherError))])
  {
    InStockIff(s.creates[c].items, s.products);
    AcceptableIff(s, s.creates[c]);
    hide Taken, FirstRejection, PricedLines, InStock, Acceptable, UniqueViolated;
  }

  /** All or nothing: an acceptable request adds one PENDING order over its items, at the prices of their
      products, and takes exactly their quantities; any other leaves every stock, every order and every
      message as it was, and fails with a unique violation exactly when only its key is in the way. */
  lemma CreateIsAllOrNothing(s: State, c: nat)
    requires c < |s.creates| && s.creates[c].phase.Prechecked?
    ensures var t := Step(s, CreateTx(c));
            if Acceptable(s, s.creates[c]) then
              && Placed(s, t, s.creates[c].user, s.creates[c].key, s.creates[c].items)
              && ItemsOf(t.orders[|s.orders|].lines) == s.creates[c].items
              && t.queue == s.queue && t.published == s.published
              && t.creates == s.creates[c := s.creates[c].(phase := Committed(|s.orders|))]
            else
              && SameBooks(s, t) && t.queue == s.queue && t.published == s.published
              && t.creates == s.creates[c := s.creates[c].(phase := TxFailed(
                                if InStock(s.creates[c].items, s.products) then UniqueViolation else OtherError))]
  {
    hide DoCreateTx, Acceptable, InStock, Placed, ItemsOf;
    if Acceptable(s, s.creates[c]) {
      AcceptedTx(s, c);
    } else {
      RefusedTx(s, c);
    }
  }

  // ---- Recovery from a lost race

  /** The order that a call may have instead of its own: the caller's, with the call's key. */
  predicate OwnOrder(orders: seq<Order>, call: CreateCall, o: OrderId) {
    call.key.Some? && o < |orders| && orders[o].key == call.key && orders[o].user == call.user
  }

  /** A failed call returns the caller's own order with its key when the failure was a unique violation,
      and throws otherwise; either way no table changes. */
  lemma RecoverIff(s: State, c: nat)
    requires c < |s.creates| && s.creates[c].phase.TxFailed? && KeysUnique(s.orders)
    ensures var t, call := Step(s, Recover(c)), s.creates[c];
            && SameBooks(s, t) && t.queue == s.queue && t.published == s.published
            && |t.creates| == |s.creates| && t.creates == s.creates[c := call.(phase := t.creates[c].phase)]
            && (forall o :: t.creates[c].phase == Returned(o) <==>
                  call.phase.error == UniqueViolation && OwnOrder(s.orders, call, o))
            && (t.creates[c].phase.Returned? || t.creates[c].phase.Thrown?)
  {
    hide DoStartCreate, DoCheckKey, DoPrecheck, DoCreateTx, DoCreateTxFails, DoPublish, DoPublishFails, DoStartCancel,
         DoCancelGuard, DoCancelLoad, DoCancelCommit, DoCancelFails, DoDeliver, DoWorkerBegin, DoWorkerCommit,
         DoWorkerFails, DoStartAuthorize, DoAuthorizeFails, DoAuthorizeReturns, DoPaymentWrite, DoReroute, DoAck,
         DoAckFails, DoCrash, DoRedeliver, DoServerFind, DoServerInsert, DoServerFails, DoAdminWrite, NoNewPayer;
  }

  ghost predicate KeyTaken(orders: seq<Order>, key: Option<Key>) {
    key.Some? && exists o :: 0 <= o < |orders| && orders[o].key == key
  }

  /** Calls that lost a race: their key belongs to an order. */
  ghost predicate LosersOk(creates: seq<CreateCall>, orders: seq<Order>) {
    forall c :: 0 <= c < |creates| && creates[c].phase == TxFailed(UniqueViolation) ==> KeyTaken(orders, creates[c].key)
  }

  lemma KeyTakenStays(orders: seq<Order>, later: seq<Order>, key: Option<Key>)
    requires KeyTaken(orders, key) && Evolves(orders, later)
    ensures KeyTaken(later, key)
  {
    var o :| 0 <= o < |orders| && orders[o].key == key;
    assert SameIdentity(orders[o], later[o]);
  }

  lemma LosersStay(creates: seq<CreateCall>, orders: seq<Order>, later: seq<Order>)
    requires LosersOk(creates, orders) && Evolves(orders, later)
    ensures LosersOk(creates, later)
  {
    forall c | 0 <= c < |creates| && creates[c].phase == TxFailed(UniqueViolation)
      ensures KeyTaken(later, creates[c].key)
    {
      KeyTakenStays(orders, later, creates[c].key);
    }
  }

  /** Call c has not become a loser between the two. */
  predicate NoNewLoser(s: State, t: State, c: nat) {
    c < |t.creates| && t.creates[c].phase == TxFailed(UniqueViolation) ==>
      c < |s.creates| && s.creates[c] == t.creates[c]
  }

  lemma EarlyNoLoser(s: State, user: UserId, key: Option<Key>, items: seq<Item>, d: nat, c: nat)
    ensures NoNewLoser(s, DoStartCreate(s, user, key, items), c)
    ensures NoNewLoser(s, DoCheckKey(s, d), c) && NoNewLoser(s, DoPrecheck(s, d), c)
  {
    hide LockedRows, ProductIds, SameBooks, NoNewPayer, FindKey;
  }

  lemma LateNoLoser(s: State, d: nat, c: nat)
    ensures NoNewLoser(s, DoCreateTxFails(s, d), c) && NoNewLoser(s, DoRecover(s, d), c)
    ensures NoNewLoser(s, DoPublish(s, d), c) && NoNewLoser(s, DoPublishFails(s, d), c)
  {
    hide SameBooks, NoNewPayer, FindKey;
  }

  /** Only the order transaction makes a call a loser. */
  lemma OnlyTxLoses(s: State, e: Event, c: nat)
    requires !e.CreateTx?
    ensures NoNewLoser(s, Step(s, e), c)
  {
    hide SameBooks, NoNewPayer, NoNewLoser, DoStartCreate, DoCheckKey, DoPrecheck, DoCreateTx, DoCreateTxFails,
         DoRecover, DoPublish, DoPublishFails, DoStartCancel, DoCancelGuard, DoCancelLoad, DoCancelCommit,
         DoCancelFails, DoDeliver, DoWorkerBegin, DoWorkerCommit, DoWorkerFails, DoStartAuthorize, DoAuthorizeFails,
         DoAuthorizeReturns, DoPaymentWrite, DoReroute, DoAck, DoAckFails, DoCrash, DoRedeliver, DoServerFind,
         DoServerInsert, DoServerFails, DoAdminWrite;
    match e
    case StartCreate(user, key, items) => EarlyNoLoser(s, user, key, items, 0, c);
    case CheckKey(d) => EarlyNoLoser(s, 0, None, [], d, c);
    case Precheck(d) => EarlyNoLoser(s, 0, None, [], d, c);
    case CreateTxFails(d) => LateNoLoser(s, d, c);
    case Recover(d) => LateNoLoser(s, d, c);
    case Publish(d) => LateNoLoser(s, d, c);
    case PublishFails(d) => LateNoLoser(s, d, c);
    case _ =>
      OtherCalls(s, e);
      SameCallsNoLoser(s, Step(s, e), c);
  }

  lemma SameCallsNoLoser(s: State, t: State, c: nat)
    requires t.creates == s.creates
    ensures NoNewLoser(s, t, c)
  {
  }

  lemma TxLoses(s: State, c: nat, d: nat)
    requires d < |DoCreateTx(s, c).creates| && DoCreateTx(s, c).creates[d].phase == TxFailed(UniqueViolation)
    ensures d < |s.creates| && (s.creates[d] == DoCreateTx(s, c).creates[d]
                                || (s.creates[d].key == DoCreateTx(s, c).creates[d].key
                                    && KeyTaken(s.orders, s.creates[d].key)))
  {
    hide LockedRows, ProductIds, FirstRejection, Taken, PricedLines;
    if Creating(s, c, Prechecked) && d == c {
      assert UniqueViolated(s.orders, s.creates[c].key);
      assert s.orders[FindKey(s.orders, s.creates[c].key.value).value].key == s.creates[c].key;
    }
  }

  lemma StepLosers(s: State, e: Event)
    requires Inv(s) && LosersOk(s.creates, s.orders)
    ensures LosersOk(Step(s, e).creates, Step(s, e).orders)
  {
    hide Inv, Step, KeyTaken, Evolves;
    StepEvolves(s, e);
    var t := Step(s, e);
    LosersStay(s.creates, s.orders, t.orders);
    forall c | 0 <= c < |t.creates| && t.creates[c].phase == TxFailed(UniqueViolation)
      ensures KeyTaken(t.orders, t.creates[c].key)
    {
      if e.CreateTx? {
        TxStep(s, e.c);
        TxLoses(s, e.c, c);
        if s.creates[c] != t.creates[c] {
          KeyTakenStays(s.orders, t.orders, s.creates[c].key);
        }
      } else {
        OnlyTxLoses(s, e, c);
      }
    }
  }

  lemma TxStep(s: State, c: nat)
    ensures Step(s, CreateTx(c)) == DoCreateTx(s, c)
  {
    hide DoCreateTx;
  }

  lemma {:induction false} RunLosers(s: State, es: seq<Event>)
    requires Inv(s) && LosersOk(s.creates, s.orders)
    ensures LosersOk(Run(s, es).creates, Run(s, es).orders)
    decreases |es|
  {
    hide Inv, LosersOk, Step;
    if es != [] {
      StepLosers(s, es[0]);
      StepKeepsInv(s, es[0]);
      RunLosers(Step(s, es[0]), es[1..]);
    }
  }

  /** For any interleaving: a call whose transaction lost against the unique index of the key finds the
      winner's order when it recovers, and returns it exactly when it is the caller's own. */
  lemma LoserGetsWinnersOrder(s0: State, es: seq<Event>, c: nat) returns (o: OrderId)
    requires Initial(s0) && c < |Run(s0, es).creates|
    requires Run(s0, es).creates[c].phase == TxFailed(UniqueViolation)
    ensures var s, call := Run(s0, es), Run(s0, es).creates[c];
            && o < |s.orders| && s.orders[o].key == call.key
            && c < |Step(s, Recover(c)).creates|
            && Step(s, Recover(c)).creates[c].phase == if s.orders[o].user == call.user then Returned(o) else Thrown
  {
    hide Run, PublishedOk, QueuesOk, ProcessedOk, DeliveriesOk, PayersOk, AuthCallsOk, PaymentsOk, OrdersOk, CancelsOk,
         PaidOk, NothingLost, CreatesOk;
    InitialInv(s0);
    EveryRunKeepsInv(s0, es);
    RunLosers(s0, es);
    hide Step;
    var s := Run(s0, es);
    RecoverIff(s, c);
    o :| 0 <= o < |s.orders| && s.orders[o].key == s.creates[c].key;
    assert OwnOrder(s.orders, s.creates[c], o) <==> s.orders[o].user == s.creates[c].user;
    assert forall p :: OwnOrder(s.orders, s.creates[c], p) ==> p == o;
  }

  // ---- Whose order a create call returns

  /** The key check of call c finds an order of another user, and returns it. */
  predicate ForeignHit(s: State, e: Event, c: nat) {
    && e == CheckKey(c) && Creating(s, c, Started) && UniqueViolated(s.orders, s.creates[c].key)
    && s.orders[FindKey(s.orders, s.creates[c].key.value).value].user != s.creates[c].user
  }

  predicate OwnsPhase(orders: seq<Order>, call: CreateCall, hit: bool) {
    && (call.phase.Committed? ==> call.phase.order < |orders| && orders[call.phase.order].user == call.user)
    && (call.phase.Returned? ==>
          call.phase.order < |orders| && (orders[call.phase.order].user == call.user <==> !hit))
    && (hit ==> call.phase.Returned?)
  }

  /** `hits` are the calls whose key check found an order of another user. */
  predicate OwnersOk(s: State, hits: set<nat>) {
    && (forall c :: c in hits ==> c < |s.creates|)
    && (forall c :: 0 <= c < |s.creates| ==> OwnsPhase(s.orders, s.creates[c], c in hits))
  }

  function NewHits(s: State, e: Event): set<nat> {
    if e.CheckKey? && ForeignHit(s, e, e.c) then {e.c} else {}
  }

  lemma OwnersKept(s: State, t: State, hits: set<nat>)
    requires OwnersOk(s, hits) && t.creates == s.creates && Evolves(s.orders, t.orders)
    ensures OwnersOk(t, hits)
  {
    forall c | 0 <= c < |s.creates| ensures OwnsPhase(t.orders, s.creates[c], c in hits) {
      assert OwnsPhase(s.orders, s.creates[c], c in hits);
    }
  }

  /** One call moves on to its next phase. */
  lemma OwnerMoves(s: State, c: nat, phase: CreatePhase, hits: set<nat>, hit: bool)
    requires OwnersOk(s, hits) && c < |s.creates| && c !in hits
    requires OwnsPhase(s.orders, s.creates[c].(phase := phase), hit)
    ensures OwnersOk(SetCreate(s, c, phase), if hit then hits + {c} else hits)
  {
  }

  lemma CheckKeyOwners(s: State, c: nat, hits: set<nat>)
    requires OwnersOk(s, hits)
    ensures OwnersOk(DoCheckKey(s, c), hits + NewHits(s, CheckKey(c)))
  {
    hide OwnersOk;
    assert hits + {} == hits;
    if Creating(s, c, Started) {
      StartedIsNoHit(s, c, hits);
      OwnerMoves(s, c, DoCheckKey(s, c).creates[c].phase, hits, c in NewHits(s, CheckKey(c)));
    }
  }

  lemma StartedIsNoHit(s: State, c: nat, hits: set<nat>)
    requires OwnersOk(s, hits) && c < |s.creates| && !s.creates[c].phase.Returned?
    ensures c !in hits && OwnsPhase(s.orders, s.creates[c], false)
  {
    assert OwnsPhase(s.orders, s.creates[c], c in hits);
  }

  lemma CreateTxOwners(s: State, c: nat, hits: set<nat>)
    requires OwnersOk(s, hits)
    ensures OwnersOk(DoCreateTx(s, c), hits)
  {
    hide OwnersOk, Taken, FirstRejection, LockedRows, PricedLines;
    var t := DoCreateTx(s, c);
    if t != s {
      CreateTxEvolves(s, c);
      OwnersKept(s, s.(orders := t.orders), hits);
      StartedIsNoHit(s, c, hits);
      OwnerMoves(s.(orders := t.orders), c, t.creates[c].phase, hits, false);
      SameOwners(SetCreate(s.(orders := t.orders), c, t.creates[c].phase), t, hits);
    }
  }

  lemma SameOwners(s: State, t: State, hits: set<nat>)
    requires OwnersOk(s, hits) && t.creates == s.creates && t.orders == s.orders
    ensures OwnersOk(t, hits)
  {
  }

  /** One create call that has not returned moves on, to a phase with its own order if with any. */
  predicate OneCallMoved(s: State, t: State, c: nat) {
    && t.orders == s.orders && c < |s.creates| == |t.creates| && !s.creates[c].phase.Returned?
    && t.creates == s.creates[c := s.creates[c].(phase := t.creates[c].phase)]
    && (OwnsPhase(s.orders, s.creates[c], false) ==> OwnsPhase(s.orders, t.creates[c], false))
  }

  lemma TransactionCallMoves(s: State, c: nat)
    ensures DoPrecheck(s, c) != s ==> OneCallMoved(s, DoPrecheck(s, c), c)
    ensures DoCreateTxFails(s, c) != s ==> OneCallMoved(s, DoCreateTxFails(s, c), c)
  {
    hide LockedRows, SameBooks, NoNewPayer, ProductIds, FindKey;
  }

  lemma RecoverMoves(s: State, c: nat)
    ensures DoRecover(s, c) != s ==> OneCallMoved(s, DoRecover(s, c), c)
  {
    hide SameBooks, NoNewPayer;
  }

  lemma PublishMoves(s: State, c: nat)
    ensures DoPublish(s, c) != s ==> OneCallMoved(s, DoPublish(s, c), c)
    ensures DoPublishFails(s, c) != s ==> OneCallMoved(s, DoPublishFails(s, c), c)
  {
    hide SameBooks, NoNewPayer, FindKey;
  }

  lemma MovedOwners(s: State, t: State, c: nat, hits: set<nat>)
    requires OwnersOk(s, hits) && OneCallMoved(s, t, c)
    ensures OwnersOk(t, hits)
  {
    hide OwnersOk;
    var phase := t.creates[c].phase;
    StartedIsNoHit(s, c, hits);
    OwnerMoves(s, c, phase, hits, false);
    SameOwners(SetCreate(s, c, phase), t, hits);
  }

  lemma OtherCreateOwners(s: State, e: Event, hits: set<nat>)
    requires OwnersOk(s, hits)
    requires e.Precheck? || e.CreateTxFails? || e.Recover? || e.Publish? || e.PublishFails?
    ensures OwnersOk(Step(s, e), hits)
  {
    hide OwnersOk, OneCallMoved, DoPrecheck, DoCreateTxFails, DoRecover, DoPublish, DoPublishFails, SameBooks,
         NoNewPayer;
    TransactionCallMoves(s, e.c);
    RecoverMoves(s, e.c);
    PublishMoves(s, e.c);
    if Step(s, e) != s {
      MovedOwners(s, Step(s, e), e.c, hits);
    }
  }

  lemma StartCreateOwners(s: State, user: UserId, key: Option<Key>, items: seq<Item>, hits: set<nat>)
    requires OwnersOk(s, hits)
    ensures OwnersOk(DoStartCreate(s, user, key, items), hits)
  {
    hide ValidQuantities;
    var t := DoStartCreate(s, user, key, items);
    forall c | 0 <= c < |t.creates| ensures OwnsPhase(t.orders, t.creates[c], c in hits) {
      assert c < |s.creates| ==> OwnsPhase(s.orders, s.creates[c], c in hits);
    }
  }

  lemma StepOwners(s: State, e: Event, hits: set<nat>)
    requires Inv(s) && OwnersOk(s, hits)
    ensures OwnersOk(Step(s, e), hits + NewHits(s, e))
  {
    hide Inv, OwnersOk, ForeignHit, SameBooks, NoNewPayer, DoStartCreate, DoCheckKey, DoPrecheck, DoCreateTx,
         DoCreateTxFails, DoRecover, DoPublish, DoPublishFails, DoStartCancel, DoCancelGuard, DoCancelLoad,
         DoCancelCommit, DoCancelFails, DoDeliver, DoWorkerBegin, DoWorkerCommit, DoWorkerFails, DoStartAuthorize,
         DoAuthorizeFails, DoAuthorizeReturns, DoPaymentWrite, DoReroute, DoAck, DoAckFails, DoCrash, DoRedeliver,
         DoServerFind, DoServerInsert, DoServerFails, DoAdminWrite;
    assert !e.CheckKey? ==> hits + NewHits(s, e) == hits;
    match e
    case CheckKey(c) => CheckKeyOwners(s, c, hits);
    case CreateTx(c) => CreateTxOwners(s, c, hits);
    case StartCreate(user, key, items) => StartCreateOwners(s, user, key, items, hits);
    case Precheck(c) => OtherCreateOwners(s, e, hits);
    case CreateTxFails(c) => OtherCreateOwners(s, e, hits);
    case Recover(c) => OtherCreateOwners(s, e, hits);
    case Publish(c) => OtherCreateOwners(s, e, hits);
    case PublishFails(c) => OtherCreateOwners(s, e, hits);
    case _ =>
      OtherCalls(s, e);
      StepEvolves(s, e);
      OwnersKept(s, Step(s, e), hits);
  }

  /** The calls whose key check found an order of another user, during the run. */
  ghost function ForeignHits(s0: State, es: seq<Event>): set<nat> {
    if es == [] then {}
    else ForeignHits(s0, es[..|es| - 1]) + NewHits(Run(s0, es[..|es| - 1]), es[|es| - 1])
  }

  lemma {:induction false} ForeignHitsIff(s0: State, es: seq<Event>, c: nat)
    ensures c in ForeignHits(s0, es) <==> exists k :: 0 <= k < |es| && ForeignHit(Run(s0, es[..k]), es[k], c)
  {
    hide Run, ForeignHit;
    if es != [] {
      var front := es[..|es| - 1];
      ForeignHitsIff(s0, front, c);
      assert forall k :: 0 <= k < |front| ==> es[k] == front[k] && es[..k] == front[..k];
      if k :| 0 <= k < |es| && ForeignHit(Run(s0, es[..k]), es[k], c) {
        HitIsCheck(Run(s0, es[..k]), es[k], c);
        assert k < |front| ==> ForeignHit(Run(s0, front[..k]), front[k], c);
      }
      if c in NewHits(Run(s0, front), es[|es| - 1]) {
        assert ForeignHit(Run(s0, es[..|es| - 1]), es[|es| - 1], c);
      }
      if k :| 0 <= k < |front| && ForeignHit(Run(s0, front[..k]), front[k], c) {
        assert ForeignHit(Run(s0, es[..k]), es[k], c);
      }
    }
  }

  lemma HitIsCheck(s: State, e: Event, c: nat)
    requires ForeignHit(s, e, c)
    ensures e == CheckKey(c)
  {
  }

  lemma {:induction false} RunOwners(s0: State, es: seq<Event>)
    requires Initial(s0)
    ensures OwnersOk(Run(s0, es), ForeignHits(s0, es))
  {
    hide Run, Step, NewHits, Inv;
    if es == [] {
      Empty(s0);
    } else {
      var front := es[..|es| - 1];
      RunOwners(s0, front);
      EveryRunKeepsInv(s0, front);
      StepOwners(Run(s0, front), es[|es| - 1], ForeignHits(s0, front));
      Then(s0, front, es[|es| - 1]);
      assert es == front + [es[|es| - 1]];
    }
  }

  /** A create call returns an order of its own caller, exactly unless its key check found an order of
      another user: recovery from a lost race and creation itself never return a foreign order. */
  lemma ReturnedOrderIsOwnIff(s0: State, es: seq<Event>, c: nat)
    requires Initial(s0) && c < |Run(s0, es).creates| && Run(s0, es).creates[c].phase.Returned?
    ensures var t := Run(s0, es);
            && t.creates[c].phase.order < |t.orders|
            && (t.orders[t.creates[c].phase.order].user == t.creates[c].user <==>
                !exists k :: 0 <= k < |es| && ForeignHit(Run(s0, es[..k]), es[k], c))
  {
    hide Run, ForeignHit, ForeignHits;
    RunOwners(s0, es);
    ForeignHitsIff(s0, es, c);
    assert OwnsPhase(Run(s0, es).orders, Run(s0, es).creates[c], c in ForeignHits(s0, es));
  }

  // ---- Unguarded writes

  /** Each order is overrun at most once by its payment write and at most once by its worker. */
  predicate OverrunsOk(overruns: seq<Overrun>, paid: seq<OrderId>, processed: set<ProcessedRow>) {
    && (forall i :: 0 <= i < |overruns| && overruns[i].PaidAfterCancel? ==> overruns[i].order in paid)
    && (forall i :: 0 <= i < |overruns| && overruns[i].ProcessedAfterCancel? ==>
          OrderProcessed(processed, overruns[i].order))
    && (forall i, j :: 0 <= i < j < |overruns| && !overruns[i].CancelledAgain? ==> overruns[i] != overruns[j])
  }

  lemma WorkerCommitOverruns(s: State, d: nat)
    requires Inv(s) && OverrunsOk(s.overruns, s.paid, s.processed)
    ensures var t := DoWorkerCommit(s, d); OverrunsOk(t.overruns, t.paid, t.processed)
  {
    hide Inv, OverrunsOk, OrderProcessed;
    if Handling(s, d) && s.deliveries[d].phase.InTransaction? {
      NoPaymentWhileOpen(s, d);
      ProcessedOverrun(s.overruns, s.paid, s.processed, RowOf(s.deliveries[d].message));
    }
  }

  lemma ProcessedOverrun(overruns: seq<Overrun>, paid: seq<OrderId>, processed: set<ProcessedRow>, row: ProcessedRow)
    requires OverrunsOk(overruns, paid, processed) && !OrderProcessed(processed, row.order)
    ensures OverrunsOk(overruns, paid, processed + {row})
    ensures OverrunsOk(overruns + [ProcessedAfterCancel(row.order)], paid, processed + {row})
  {
    assert row in processed + {row};
  }

  lemma PaymentWriteOverruns(s: State, d: nat)
    requires Inv(s) && OverrunsOk(s.overruns, s.paid, s.processed)
    ensures var t := DoPaymentWrite(s, d); OverrunsOk(t.overruns, t.paid, t.processed)
  {
    hide KeysUnique, CreatesOk, PublishedOk, QueuesOk, ProcessedOk, DeliveriesOk, AuthCallsOk, PaymentsOk, OrdersOk,
         CancelsOk, NothingLost;
    if d < |s.deliveries| && s.deliveries[d].phase.Writing? {
      assert forall i :: 0 <= i < |s.paid| ==> s.paid[i] != s.deliveries[d].message.order;
    }
  }

  lemma {:induction false} RunOverruns(s: State, es: seq<Event>)
    requires Inv(s) && OverrunsOk(s.overruns, s.paid, s.processed)
    ensures OverrunsOk(Run(s, es).overruns, Run(s, es).paid, Run(s, es).processed)
    decreases |es|
  {
    hide Inv, OverrunsOk, Step;
    if es != [] {
      StepOverruns(s, es[0]);
      StepKeepsInv(s, es[0]);
      RunOverruns(Step(s, es[0]), es[1..]);
    }
  }

  lemma StepOverruns(s: State, e: Event)
    requires Inv(s) && OverrunsOk(s.overruns, s.paid, s.processed)
    ensures var t := Step(s, e); OverrunsOk(t.overruns, t.paid, t.processed)
  {
    hide Inv, DoWorkerCommit, DoPaymentWrite, Taken, GivenBack, FirstRejection, LockedRows, DoStartCreate, DoCheckKey,
         DoPrecheck, DoCreateTxFails, DoRecover, DoPublish, DoPublishFails, DoStartCancel, DoCancelGuard,
         DoCancelLoad, DoCancelFails, DoDeliver, DoWorkerBegin, DoWorkerFails, DoStartAuthorize, DoAuthorizeFails,
         DoAuthorizeReturns, DoReroute, DoAck, DoAckFails, DoCrash, DoRedeliver, DoServerFind, DoServerInsert,
         DoServerFails;
    if LeavesBooks(e) {
      BooksUntouched(s, e);
    } else if e.WorkerCommit? {
      WorkerCommitOverruns(s, e.d);
    } else if e.PaymentWrite? {
      PaymentWriteOverruns(s, e.d);
    }
  }

  lemma OverrunsBounded(s0: State, es: seq<Event>)
    requires Initial(s0)
    ensures OverrunsOk(Run(s0, es).overruns, Run(s0, es).paid, Run(s0, es).processed)
  {
    InitialInv(s0);
    RunOverruns(s0, es);
  }

  // ---- What a failed payment leaves behind

  /** The order's message has been processed and no handler is on its way to paying it. */
  predicate Abandoned(s: State, o: OrderId) {
    && o < |s.orders| && s.orders[o].status != PAID
    && OrderProcessed(s.processed, o)
    && forall d :: 0 <= d < |s.deliveries| && Payer(s.deliveries[d].phase) ==> s.deliveries[d].message.order != o
  }

  lemma StepKeepsAbandoned(s: State, e: Event, o: OrderId)
    requires Inv(s) && Abandoned(s, o)
    ensures Abandoned(Step(s, e), o)
  {
    hide Inv, DoStartCreate, DoCheckKey, DoPrecheck, DoCreateTx, DoCreateTxFails, DoRecover, DoPublish,
         DoPublishFails, DoStartCancel, DoCancelGuard, DoCancelLoad, DoCancelCommit, DoCancelFails, DoDeliver,
         DoWorkerBegin, DoWorkerCommit, DoWorkerFails, DoStartAuthorize, DoAuthorizeFails, DoAuthorizeReturns,
         DoPaymentWrite, DoReroute, DoAck, DoAckFails, DoCrash, DoRedeliver, DoServerFind, DoServerInsert,
         DoServerFails;
    if LeavesBooks(e) {
      BooksUntouched(s, e);
    } else {
      match e
      case WorkerCommit(d) => AbandonedByWorker(s, d, o);
      case CreateTx(c) => AbandonedByOthers(s, e, o);
      case CancelCommit(k, keep) => AbandonedByOthers(s, e, o);
      case PaymentWrite(d) => AbandonedByOthers(s, e, o);
      case AdminWrite(p, row) =>
    }
  }

  lemma AbandonedByOthers(s: State, e: Event, o: OrderId)
    requires Abandoned(s, o) && (e.CreateTx? || e.CancelCommit? || e.PaymentWrite?)
    ensures Abandoned(Step(s, e), o)
  {
    hide SameBooks, NoNewPayer, Taken, GivenBack, FirstRejection, LockedRows, PricedLines, ItemsOf, DoStartCreate,
         DoCheckKey, DoPrecheck, DoCreateTxFails, DoRecover, DoPublish, DoPublishFails, DoStartCancel, DoCancelGuard,
         DoCancelLoad, DoCancelFails, DoDeliver, DoWorkerBegin, DoWorkerFails, DoStartAuthorize, DoAuthorizeFails,
         DoAuthorizeReturns, DoReroute, DoAck, DoAckFails, DoCrash, DoRedeliver, DoServerFind, DoServerInsert,
         DoServerFails, DoWorkerCommit, DoAdminWrite;
  }

  lemma AbandonedByWorker(s: State, d: nat, o: OrderId)
    requires Inv(s) && Abandoned(s, o)
    ensures Abandoned(DoWorkerCommit(s, d), o)
  {
    hide Inv;
    if DoWorkerCommit(s, d) != s {
      NoPaymentWhileOpen(s, d);
    }
  }

  lemma {:induction false} RunKeepsAbandoned(s: State, es: seq<Event>, o: OrderId)
    requires Inv(s) && Abandoned(s, o)
    ensures Abandoned(Run(s, es), o)
    decreases |es|
  {
    hide Inv, Abandoned;
    if es != [] {
      StepKeepsAbandoned(s, es[0], o);
      StepKeepsInv(s, es[0]);
      RunKeepsAbandoned(Step(s, es[0]), es[1..], o);
    }
  }

  /** The payment of an abandoned order is never retried: no continuation makes it PAID. */
  lemma AbandonedIsNeverPaid(s0: State, es: seq<Event>, fs: seq<Event>, o: OrderId)
    requires Initial(s0) && Abandoned(Run(s0, es), o)
    ensures Abandoned(Run(s0, es + fs), o) && Run(s0, es + fs).orders[o].status != PAID
  {
    EveryRunKeepsInv(s0, es);
    RunConcat(s0, es, fs);
    RunKeepsAbandoned(Run(s0, es), fs, o);
  }

  /** Every PAID order has had its payment write. */
  predicate PaidLogged(s: State) {
    forall o :: 0 <= o < |s.orders| && s.orders[o].status == PAID ==> o in s.paid
  }

  lemma OrderWritesKeepPaidLogged(s: State, e: Event)
    requires PaidLogged(s) && (e.CancelCommit? || e.WorkerCommit? || e.PaymentWrite?)
    ensures PaidLogged(Step(s, e))
  {
    hide GivenBack, ItemsOf;
  }

  lemma CatalogueWritesKeepPaidLogged(s: State, e: Event)
    requires PaidLogged(s) && (e.CreateTx? || e.AdminWrite?)
    ensures PaidLogged(Step(s, e))
  {
    hide Taken, FirstRejection, LockedRows, PricedLines;
  }

  lemma StepKeepsPaidLogged(s: State, e: Event)
    requires PaidLogged(s)
    ensures PaidLogged(Step(s, e))
  {
    hide Step;
    if LeavesBooks(e) {
      BooksUntouched(s, e);
    } else if e.CreateTx? || e.AdminWrite? {
      CatalogueWritesKeepPaidLogged(s, e);
    } else {
      OrderWritesKeepPaidLogged(s, e);
    }
  }

  lemma {:induction false} RunKeepsPaidLogged(s: State, es: seq<Event>)
    requires PaidLogged(s)
    ensures PaidLogged(Run(s, es))
    decreases |es|
  {
    hide PaidLogged, Step;
    if es != [] {
      StepKeepsPaidLogged(s, es[0]);
      RunKeepsPaidLogged(Step(s, es[0]), es[1..]);
    }
  }

  lemma FailureAbandons(s: State, d: nat)
    requires Inv(s) && PaidLogged(s) && d < |s.deliveries| && Payer(s.deliveries[d].phase)
    ensures Abandoned(DoAuthorizeFails(s, d), s.deliveries[d].message.order)
  {
    hide KeysUnique, CreatesOk, PublishedOk, QueuesOk, AuthCallsOk, PaymentsOk, OrdersOk, CancelsOk, DeliveriesOk,
         NothingLost;
    var m := s.deliveries[d].message;
    assert RowOf(m) in s.processed;
    assert m.order !in s.paid by {
      assert forall i :: 0 <= i < |s.paid| ==> s.paid[i] != m.order;
    }
  }

  /** When the payment of an order fails at any moment after the worker's commit, no continuation
      (retry, redelivery, a late answer of the payments service) ever makes the order PAID. */
  lemma FailedPaymentIsFinal(s0: State, es: seq<Event>, d: nat, fs: seq<Event>)
    requires Initial(s0) && d < |Run(s0, es).deliveries| && Payer(Run(s0, es).deliveries[d].phase)
    ensures var o := Run(s0, es).deliveries[d].message.order;
            var t := Run(s0, es + [AuthorizeFails(d)] + fs);
            o < |t.orders| && t.orders[o].status != PAID
  {
    hide Run, Inv, DoAuthorizeFails;
    EveryRunKeepsInv(s0, es);
    RunKeepsPaidLogged(s0, es);
    FailureAbandons(Run(s0, es), d);
    Then(s0, es, AuthorizeFails(d));
    AbandonedIsNeverPaid(s0, es + [AuthorizeFails(d)], fs, Run(s0, es).deliveries[d].message.order);
  }

  // ---- Composing runs

  lemma Then(s0: State, es: seq<Event>, e: Event)
    ensures Run(s0, es + [e]) == Step(Run(s0, es), e)
  {
    RunConcat(s0, es, [e]);
    assert [e][1..] == [];
  }

  lemma Empty(s: State)
    ensures Run(s, []) == s
  {
    hide Step;
  }

  /** The four events of a cancellation that nothing interrupts. */
  function CancelEvents(user: UserId, o: OrderId, k: nat): seq<Event> {
    [StartCancel(user, o), CancelGuard(k), CancelLoad(k), CancelCommit(k, true)]
  }

  lemma CancelSteps(s: State, user: UserId, o: OrderId, k: nat)
    ensures Run(s, CancelEvents(user, o, k))
         == DoCancelCommit(DoCancelLoad(DoCancelGuard(DoStartCancel(s, user, o), k), k), k, true)
  {
    hide Run, SameBooks, NoNewPayer, DoStartCreate, DoCheckKey, DoPrecheck, DoCreateTx, DoCreateTxFails, DoRecover,
         DoPublish, DoPublishFails, DoStartCancel, DoCancelGuard, DoCancelLoad, DoCancelCommit, DoCancelFails,
         DoDeliver, DoWorkerBegin, DoWorkerCommit, DoWorkerFails, DoStartAuthorize, DoAuthorizeFails,
         DoAuthorizeReturns, DoPaymentWrite, DoReroute, DoAck, DoAckFails, DoCrash, DoRedeliver, DoServerFind,
         DoServerInsert, DoServerFails, DoAdminWrite;
    FourSteps(s, CancelEvents(user, o, k));
  }

  predicate Cancellable(s: State, user: UserId, o: OrderId) {
    o < |s.orders| && s.orders[o].user == user && s.orders[o].status !in {CANCELLED, CREATED}
  }

  lemma UninterruptedCancel(s: State, user: UserId, o: OrderId)
    requires Cancellable(s, user, o)
    ensures Run(s, CancelEvents(user, o, |s.cancels|)) == s.(
              products := GivenBack(s.products, ItemsOf(s.orders[o].lines)),
              orders := s.orders[o := s.orders[o].(status := CANCELLED)],
              cancels := s.cancels + [CancelCall(user, o, CancelDone)])
  {
    hide GivenBack, ItemsOf, Run, Step, DoCancelCommit;
    var k := |s.cancels|;
    var s1 := DoStartCancel(s, user, o);
    assert s1 == s.(cancels := s.cancels + [CancelCall(user, o, CancelStarted)]);
    var s2 := DoCancelGuard(s1, k);
    assert s2 == s.(cancels := s.cancels + [CancelCall(user, o, Guarded)]);
    var s3 := DoCancelLoad(s2, k);
    assert s3 == s.(cancels := s.cancels + [CancelCall(user, o, Loaded(s.orders[o]))]);
    CommitLoaded(s, user, o);
    CancelSteps(s, user, o, k);
  }

  lemma CommitLoaded(s: State, user: UserId, o: OrderId)
    requires Cancellable(s, user, o)
    ensures DoCancelCommit(s.(cancels := s.cancels + [CancelCall(user, o, Loaded(s.orders[o]))]), |s.cancels|, true)
         == s.(
              products := GivenBack(s.products, ItemsOf(s.orders[o].lines)),
              orders := s.orders[o := s.orders[o].(status := CANCELLED)],
              cancels := s.cancels + [CancelCall(user, o, CancelDone)])
  {
  }

  /** From every state in which a payment is about to be written, the owner's cancellation can
      overtake it: the stock is given back and the order ends up PAID all the same. */
  lemma CancellationOvertakesPayment(s: State, d: nat)
    requires d < |s.deliveries| && s.deliveries[d].phase.Writing?
    requires s.deliveries[d].message.order < |s.orders|
    requires s.orders[s.deliveries[d].message.order].status !in {CANCELLED, CREATED}
    ensures var o := s.deliveries[d].message.order;
            var t := Run(s, CancelEvents(s.orders[o].user, o, |s.cancels|) + [PaymentWrite(d)]);
            && |t.orders| == |s.orders| && t.orders[o].status == PAID
            && t.overruns == s.overruns + [PaidAfterCancel(o)]
            && t.products == GivenBack(s.products, ItemsOf(s.orders[o].lines))
  {
    hide GivenBack, ItemsOf, Run, SameBooks, NoNewPayer;
    var o := s.deliveries[d].message.order;
    UninterruptedCancel(s, s.orders[o].user, o);
    Then(s, CancelEvents(s.orders[o].user, o, |s.cancels|), PaymentWrite(d));
  }

  lemma FourSteps(s: State, es: seq<Event>)
    requires |es| == 4
    ensures Run(s, es) == Step(Step(Step(Step(s, es[0]), es[1]), es[2]), es[3])
  {
    hide Step;
    Then(s, es[..3], es[3]);
    Then(s, es[..2], es[2]);
    Then(s, es[..1], es[1]);
    Then(s, [], es[0]);
    assert es == es[..3] + [es[3]] && es[..3] == es[..2] + [es[2]];
    assert es[..2] == es[..1] + [es[1]] && es[..1] == [] + [es[0]];
  }
}
