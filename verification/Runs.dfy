/** Concrete runs from an empty order book: they reach the states that the theorems speak about and
    show what can happen there. */
module Runs {
  import opened Common
  import opened Stock
  import opened Protocol
  import opened Amounts
  import opened Invariants
  import opened Theorems
  import opened Money
  import opened ShopService
  import opened Cart
  import opened Checkout

  /** A shop with `stock` pieces of product 7, and nothing ordered yet. */
  function ShopWith(stock: nat): State {
    State(map[7 := Row(stock, true, false, 100)], [], {}, [], multiset{}, multiset{}, false,
          [], [], [], [], [], [], [], {})
  }

  const Two := [Item(7, 2)]
  const Order0 := Order(1, None, [Line(Item(7, 2), 100)], PENDING, None)

  /** One order of two pieces, committed but not yet published. */
  function OrderWith(key: Option<Key>): State {
    ShopWith(3).(
      orders := [Order(1, key, [Line(Item(7, 2), 100)], PENDING, None)],
      creates := [CreateCall(1, key, Two, Committed(0))])
  }

  function OneOrder(): State {
    OrderWith(None)
  }

  function Creating(key: Option<Key>, phase: CreatePhase): State {
    ShopWith(5).(creates := [CreateCall(1, key, Two, phase)])
  }

  lemma ReachKeyFree(key: Option<Key>) returns (es: seq<Event>)
    ensures es == [StartCreate(1, key, Two), CheckKey(0)] && Run(ShopWith(5), es) == Creating(key, KeyFree)
  {
    hide Run, SameBooks, NoNewPayer;
    var e1 := [StartCreate(1, key, Two)];
    Empty(ShopWith(5));
    Then(ShopWith(5), [], e1[0]);
    assert [] + e1 == e1;
    assert Run(ShopWith(5), e1) == Creating(key, Started);
    es := e1 + [CheckKey(0)];
    Then(ShopWith(5), e1, CheckKey(0));
  }

  lemma ReachPrechecked(key: Option<Key>) returns (es: seq<Event>)
    ensures es == [StartCreate(1, key, Two), CheckKey(0), Precheck(0)]
    ensures Run(ShopWith(5), es) == Creating(key, Prechecked)
  {
    hide Run, SameBooks, NoNewPayer;
    var e2 := ReachKeyFree(key);
    es := e2 + [Precheck(0)];
    Then(ShopWith(5), e2, Precheck(0));
    assert Two[0].product == 7;
    assert ProductIds(Two) == {7};
    assert LockedRows(ShopWith(5).products, {7}) == ShopWith(5).products;
  }

  lemma ReachOrderWith(key: Option<Key>) returns (es: seq<Event>)
    ensures es == [StartCreate(1, key, Two), CheckKey(0), Precheck(0), CreateTx(0)]
    ensures Run(ShopWith(5), es) == OrderWith(key)
  {
    hide Run, SameBooks, NoNewPayer;
    var e3 := ReachPrechecked(key);
    es := e3 + [CreateTx(0)];
    Then(ShopWith(5), e3, CreateTx(0));
    var s := Run(ShopWith(5), e3);
    assert Two[0].product == 7;
    assert ProductIds(Two) == {7};
    assert LockedRows(s.products, {7}) == s.products;
    assert Rejection(Two[0], s.products).None?;
    assert Quantity(Two, 7) == 2 by {
      assert Two[..0] == [];
    }
    assert Taken(s.products, Two) == ShopWith(3).products;
    assert PricedLines(Two, s.products) == [Line(Item(7, 2), 100)];
    var t := Step(s, CreateTx(0));
    assert t.orders == OrderWith(key).orders && t.creates == OrderWith(key).creates;
    assert t.products == OrderWith(key).products;
  }

  lemma ReachOneOrder() returns (es: seq<Event>)
    ensures es == [StartCreate(1, None, Two), CheckKey(0), Precheck(0), CreateTx(0)]
    ensures Run(ShopWith(5), es) == OneOrder()
  {
    es := ReachOrderWith(None);
  }

  /** User 2 sends the key of user 1's order and receives that order. */
  lemma ForeignOrderReturned() returns (es: seq<Event>)
    ensures var t := Run(ShopWith(5), es);
            && |t.orders| == 1 && t.orders[0].user == 1
            && |t.creates| == 2 && t.creates[1] == CreateCall(2, Some(9), Two, Returned(0))
  {
    hide Run, SameBooks, NoNewPayer;
    var e0 := ReachOrderWith(Some(9));
    var e1 := e0 + [StartCreate(2, Some(9), Two)];
    Then(ShopWith(5), e0, StartCreate(2, Some(9), Two));
    var first := CreateCall(1, Some(9), Two, Committed(0));
    assert Run(ShopWith(5), e1).creates == [first, CreateCall(2, Some(9), Two, Started)];
    es := e1 + [CheckKey(1)];
    Then(ShopWith(5), e1, CheckKey(1));
    assert FindKey(OrderWith(Some(9)).orders, 9) == Some(0);
  }

  // ---- A lost race

  const Order9 := Order0.(key := Some(9))

  /** Two calls of user 1 with one key. */
  function Racing(stock: nat, orders: seq<Order>, first: CreatePhase, second: CreatePhase): State {
    ShopWith(stock).(
      orders := orders, creates := [CreateCall(1, Some(9), Two, first), CreateCall(1, Some(9), Two, second)])
  }

  lemma ReachRace() returns (es: seq<Event>)
    ensures Run(ShopWith(5), es) == Racing(5, [], Prechecked, KeyFree)
  {
    hide Run, SameBooks, NoNewPayer;
    var e0 := ReachPrechecked(Some(9));
    var e1 := e0 + [StartCreate(1, Some(9), Two)];
    Then(ShopWith(5), e0, StartCreate(1, Some(9), Two));
    assert Run(ShopWith(5), e1) == Racing(5, [], Prechecked, Started);
    es := e1 + [CheckKey(1)];
    Then(ShopWith(5), e1, CheckKey(1));
  }

  lemma ReachBothPrechecked() returns (es: seq<Event>)
    ensures Run(ShopWith(5), es) == Racing(5, [], Prechecked, Prechecked)
  {
    hide Run, SameBooks, NoNewPayer;
    var e0 := ReachRace();
    es := e0 + [Precheck(1)];
    Then(ShopWith(5), e0, Precheck(1));
    assert Two[0].product == 7;
    assert ProductIds(Two) == {7};
    assert LockedRows(ShopWith(5).products, {7}) == ShopWith(5).products;
  }

  lemma TwoPiecesTaken(stock: nat)
    requires stock >= 2
    ensures InStock(Two, ShopWith(stock).products)
    ensures forall p :: p in ShopWith(stock).products ==> p == 7 && Quantity(Two, p) == 2
  {
    assert Two[..0] == [];
  }

  lemma ReachWinner() returns (es: seq<Event>)
    ensures Run(ShopWith(5), es) == Racing(3, [Order9], Committed(0), Prechecked)
  {
    hide Run, InStock, Quantity;
    var e0 := ReachBothPrechecked();
    var s := Racing(5, [], Prechecked, Prechecked);
    es := e0 + [CreateTx(0)];
    Then(ShopWith(5), e0, CreateTx(0));
    TwoPiecesTaken(5);
    TxStep(s, 0);
    hide Step;
    AcceptableIff(s, s.creates[0]);
    AcceptedTransaction(s, 0);
    AcceptedTx(s, 0);
    var t := DoCreateTx(s, 0);
    hide DoCreateTx, Taken, FirstRejection, LockedRows;
    assert t.products == ShopWith(3).products;
    assert t.orders[0].lines == [Line(Item(7, 2), 100)];
    assert t.orders == [Order9];
    assert t.creates == Racing(3, [Order9], Committed(0), Prechecked).creates;
  }

  lemma ReachLoser() returns (es: seq<Event>)
    ensures Run(ShopWith(5), es) == Racing(3, [Order9], Committed(0), TxFailed(UniqueViolation))
  {
    hide Run, InStock, Quantity;
    var e0 := ReachWinner();
    var s := Racing(3, [Order9], Committed(0), Prechecked);
    es := e0 + [CreateTx(1)];
    Then(ShopWith(5), e0, CreateTx(1));
    TwoPiecesTaken(3);
    TxStep(s, 1);
    hide Step;
    assert s.orders[0].key == Some(9);
    RefusedTx(s, 1);
  }

  /** Two overlapping calls with one key: the second loses against the unique index, and both return the one
      order. */
  lemma LostRace() returns (es: seq<Event>)
    ensures var t := Run(ShopWith(5), es);
            && |t.orders| == 1 && |t.creates| == 2
            && t.creates[0].phase == Returned(0) && t.creates[1].phase == Returned(0)
            && t.products == ShopWith(3).products
  {
    hide Run, SameBooks, NoNewPayer;
    var e0 := ReachLoser();
    var s := Racing(3, [Order9], Committed(0), TxFailed(UniqueViolation));
    var e1 := e0 + [Recover(1)];
    Then(ShopWith(5), e0, Recover(1));
    assert KeysUnique(s.orders);
    RecoverIff(s, 1);
    assert OwnOrder(s.orders, s.creates[1], 0);
    var s1 := Racing(3, [Order9], Committed(0), Returned(0));
    assert Step(s, Recover(1)).creates == s1.creates;
    es := e1 + [Publish(0)];
    Then(ShopWith(5), e1, Publish(0));
  }

  function BothCancels(phase: CancelPhase): State {
    OneOrder().(cancels := [CancelCall(1, 0, phase), CancelCall(1, 0, phase)])
  }

  lemma BothStarted(s0: State, e0: seq<Event>) returns (es: seq<Event>)
    requires Run(s0, e0) == OneOrder()
    ensures Run(s0, es) == BothCancels(CancelStarted)
  {
    hide Run, SameBooks, NoNewPayer;
    var e1 := e0 + [StartCancel(1, 0)];
    Then(s0, e0, StartCancel(1, 0));
    es := e1 + [StartCancel(1, 0)];
    Then(s0, e1, StartCancel(1, 0));
  }

  lemma BothGuarded(s0: State, e0: seq<Event>) returns (es: seq<Event>)
    requires Run(s0, e0) == BothCancels(CancelStarted)
    ensures Run(s0, es) == BothCancels(Guarded)
  {
    hide Run, SameBooks, NoNewPayer;
    var e1 := e0 + [CancelGuard(0)];
    Then(s0, e0, CancelGuard(0));
    es := e1 + [CancelGuard(1)];
    Then(s0, e1, CancelGuard(1));
  }

  lemma BothLoaded(s0: State, e0: seq<Event>) returns (es: seq<Event>)
    requires Run(s0, e0) == BothCancels(Guarded)
    ensures Run(s0, es) == BothCancels(Loaded(OneOrder().orders[0]))
  {
    hide Run;
    var e1 := e0 + [CancelLoad(0)];
    Then(s0, e0, CancelLoad(0));
    es := e1 + [CancelLoad(1)];
    Then(s0, e1, CancelLoad(1));
  }

  /** Two cancellations of one order that both read it before either commits: its two pieces come
      back twice, so the shop that began with five now has seven. */
  lemma CancelledTwice() returns (es: seq<Event>)
    ensures var t := Run(ShopWith(5), es);
            && t.orders == [Order(1, None, [Line(Item(7, 2), 100)], CANCELLED, None)]
            && t.overruns == [CancelledAgain(0)]
            && t.products == ShopWith(7).products
  {
    hide Run;
    es := ReachOneOrder();
    es := BothStarted(ShopWith(5), es);
    es := BothGuarded(ShopWith(5), es);
    es := BothLoaded(ShopWith(5), es);
    es := BothCommit(ShopWith(5), es);
  }

  lemma TwoGivenBack(stock: nat)
    ensures GivenBack(ShopWith(stock).products, ItemsOf(Order0.lines)) == ShopWith(stock + 2).products
  {
    assert ItemsOf(Order0.lines) == Two;
    assert Quantity(Two, 7) == 2 by {
      assert Two[..0] == [];
    }
  }

  /** The first of the two has committed, the second still holds what it read. */
  function OneCommitted(): State {
    ShopWith(5).(
      orders := [Order0.(status := CANCELLED)],
      creates := OneOrder().creates,
      cancels := [CancelCall(1, 0, CancelDone), CancelCall(1, 0, Loaded(Order0))])
  }

  lemma FirstCommits(s0: State, e6: seq<Event>) returns (es: seq<Event>)
    requires Run(s0, e6) == BothCancels(Loaded(Order0))
    ensures Run(s0, es) == OneCommitted()
  {
    hide Run, GivenBack, ItemsOf;
    es := e6 + [CancelCommit(0, true)];
    Then(s0, e6, CancelCommit(0, true));
    TwoGivenBack(3);
  }

  lemma BothCommit(s0: State, e6: seq<Event>) returns (es: seq<Event>)
    requires Run(s0, e6) == BothCancels(Loaded(Order0))
    ensures var t := Run(s0, es);
            && t.orders == [Order(1, None, [Line(Item(7, 2), 100)], CANCELLED, None)]
            && t.overruns == [CancelledAgain(0)]
            && t.products == ShopWith(7).products
  {
    hide Run, GivenBack, ItemsOf;
    var e7 := FirstCommits(s0, e6);
    es := e7 + [CancelCommit(1, true)];
    Then(s0, e7, CancelCommit(1, true));
    TwoGivenBack(5);
  }

  // ---- A delivery, up to the payment

  const Message0 := Message(0, 0, Random(0), 1)

  /** The order is published and its message is with a worker. */
  function Delivered(phase: HandlerPhase): State {
    OneOrder().(
      creates := [CreateCall(1, None, Two, Returned(0))],
      published := [Message0],
      deliveries := [Delivery(Message0, true, phase)])
  }

  /** The worker has committed and is on its way to the payment. */
  function Processed(phase: HandlerPhase): State {
    Delivered(phase).(orders := [Order0.(status := PROCESSED)], processed := {RowOf(Message0)})
  }

  function Asked(phase: HandlerPhase, call: AuthPhase): State {
    Processed(phase).(authCalls := [AuthCall(0, 200, call)])
  }

  /** The payments service has stored and returned the payment. */
  function Answered(phase: HandlerPhase): State {
    Asked(phase, Replied(0)).(payments := [Payment(0, StoredAmount(200))])
  }

  /** The events of the create call of user 1. */
  function Creation(): seq<Event> {
    CreateEvents(1, None, Two, 0, NoFaults)
  }

  lemma ReachPublished()
    ensures Run(ShopWith(5), Creation()) == OneOrder().(
              creates := [CreateCall(1, None, Two, Returned(0))], published := [Message0], queue := multiset{Message0})
  {
    hide Run, SameBooks, NoNewPayer;
    var e0 := ReachOneOrder();
    var e1 := e0 + [Recover(0)];
    Then(ShopWith(5), e0, Recover(0));
    assert Run(ShopWith(5), e1) == OneOrder();
    var e2 := e1 + [Publish(0)];
    Then(ShopWith(5), e1, Publish(0));
    assert e2 == Creation();
  }

  lemma ReachDelivered() returns (es: seq<Event>)
    ensures Creation() <= es && Run(ShopWith(5), es) == Delivered(Received)
  {
    hide Run, SameBooks, NoNewPayer, Creation;
    ReachPublished();
    es := Creation() + [Deliver(Message0)];
    Then(ShopWith(5), Creation(), Deliver(Message0));
  }

  lemma ReachInTransaction() returns (es: seq<Event>)
    ensures Creation() <= es && Run(ShopWith(5), es) == Delivered(InTransaction(Order0))
  {
    hide Run, SameBooks, NoNewPayer;
    var e0 := ReachDelivered();
    es := e0 + [WorkerBegin(0)];
    Then(ShopWith(5), e0, WorkerBegin(0));
  }

  lemma ReachToAuthorize() returns (es: seq<Event>)
    ensures Creation() <= es && Run(ShopWith(5), es) == Processed(ToAuthorize)
  {
    hide Run, SameBooks, NoNewPayer;
    var e0 := ReachInTransaction();
    es := e0 + [WorkerCommit(0)];
    Then(ShopWith(5), e0, WorkerCommit(0));
  }

  lemma TwoPiecesCost()
    ensures SentCents(Order0.lines) == 200 && FitsColumn(StoredAmount(200))
  {
    hide SentCents, FitsColumn, StoredAmount;
    assert Order0.lines[..0] == [];
    assert TotalCents(Order0.lines) == 200;
    SentCentsExact(Order0.lines);
    RefusedIff(200);
  }

  lemma ReachSent() returns (es: seq<Event>)
    ensures Creation() <= es && Run(ShopWith(5), es) == Asked(Authorizing(0), Sent)
  {
    hide Run, SameBooks, NoNewPayer, SentCents, StoredAmount, FitsColumn, Creation;
    var e0 := ReachToAuthorize();
    es := e0 + [StartAuthorize(0)];
    Then(ShopWith(5), e0, StartAuthorize(0));
    TwoPiecesCost();
  }

  lemma ReachAsked() returns (es: seq<Event>)
    ensures Creation() <= es && Run(ShopWith(5), es) == Asked(Authorizing(0), FoundNone)
  {
    hide Run, SameBooks, NoNewPayer, StoredAmount, Creation;
    var e0 := ReachSent();
    es := e0 + [ServerFind(0)];
    Then(ShopWith(5), e0, ServerFind(0));
  }

  lemma ReachAnswered() returns (es: seq<Event>)
    ensures Creation() <= es && Run(ShopWith(5), es) == Answered(Authorizing(0))
  {
    hide Run, SameBooks, NoNewPayer, SentCents, StoredAmount, FitsColumn, Creation;
    var e0 := ReachAsked();
    es := e0 + [ServerInsert(0)];
    Then(ShopWith(5), e0, ServerInsert(0));
    TwoPiecesCost();
  }

  lemma ReachWriting() returns (es: seq<Event>)
    ensures Creation() <= es && Run(ShopWith(5), es) == Answered(Writing(0))
  {
    hide Run, SameBooks, NoNewPayer, StoredAmount, Creation;
    var e0 := ReachAnswered();
    es := e0 + [AuthorizeReturns(0)];
    Then(ShopWith(5), e0, AuthorizeReturns(0));
  }

  /** A cancellation that overtakes the payment write: all five pieces are back in stock, and the
      order is PAID. */
  lemma PaidAfterCancellation() returns (es: seq<Event>)
    ensures var t := Run(ShopWith(5), es);
            && |t.orders| == 1 && t.orders[0].status == PAID
            && t.products == ShopWith(5).products && t.overruns == [PaidAfterCancel(0)]
  {
    hide Run, Step, GivenBack, ItemsOf, StoredAmount;
    var e0 := ReachWriting();
    var rest := CancelEvents(1, 0, 0) + [PaymentWrite(0)];
    CancellationOvertakesPayment(Answered(Writing(0)), 0);
    TwoGivenBack(3);
    RunConcat(ShopWith(5), e0, rest);
    es := e0 + rest;
  }

  /** A cancellation between the worker's read and its commit: the pieces are back in stock, and the
      order is PROCESSED and goes on to its payment. */
  lemma ProcessedAfterCancellation() returns (es: seq<Event>)
    ensures var t := Run(ShopWith(5), es);
            && |t.orders| == 1 && t.orders[0].status == PROCESSED
            && t.products == ShopWith(5).products && t.overruns == [ProcessedAfterCancel(0)]
            && t.deliveries == [Delivery(Message0, true, ToAuthorize)]
  {
    hide Run, SameBooks, NoNewPayer, GivenBack, ItemsOf;
    var e0 := ReachInTransaction();
    var s := Delivered(InTransaction(Order0));
    UninterruptedCancel(s, 1, 0);
    TwoGivenBack(3);
    RunConcat(ShopWith(5), e0, CancelEvents(1, 0, 0));
    var e1 := e0 + CancelEvents(1, 0, 0);
    es := e1 + [WorkerCommit(0)];
    Then(ShopWith(5), e1, WorkerCommit(0));
  }

  /** A payment that fails: whatever happens next, the order is not PAID. */
  lemma FailedPaymentRun() returns (es: seq<Event>)
    ensures |Run(ShopWith(5), es).orders| == 1 && Run(ShopWith(5), es).orders[0].status == PROCESSED
    ensures forall fs: seq<Event> ::
              0 < |Run(ShopWith(5), es + fs).orders| && Run(ShopWith(5), es + fs).orders[0].status != PAID
  {
    hide Run, SameBooks, NoNewPayer;
    var e0 := ReachToAuthorize();
    es := e0 + [AuthorizeFails(0)];
    Then(ShopWith(5), e0, AuthorizeFails(0));
    forall fs: seq<Event>
      ensures 0 < |Run(ShopWith(5), es + fs).orders| && Run(ShopWith(5), es + fs).orders[0].status != PAID
    {
      FailedPaymentIsFinal(ShopWith(5), e0, 0, fs);
    }
  }

  // ---- A checkout

  /** The cart of user 1: two pieces of product 7. */
  const CartOfTwo := [CartRow(0, 1, 7, 2)]

  lemma CartRequest()
    ensures RequestOf(CartOfTwo, 1) == Two
  {
    assert CartOfTwo[..0] == [];
  }

  lemma TwoPiecesShown()
    ensures PricedLines(Two, ShopWith(5).products) == Order0.lines
    ensures Countable(Order0.lines) && WithinCart(Order0.lines)
    ensures PricesFit(Two, ShopWith(5).products)
  {
    assert Order0.lines[..0] == [];
    assert TotalCents(Order0.lines) == 200;
  }

  /** A cart of two pieces at 1.00 is checked out, delivered and authorized: the stored payment is the
      total that the cart showed. */
  lemma PaidCheckout() returns (es: seq<Event>)
    ensures RequestOf(CartOfTwo, 1) == Two && Creation() <= es && Countable(Order0.lines)
    ensures Run(ShopWith(5), es).payments == [Payment(0, CartTotal(Order0.lines))]
  {
    hide Run, Step, StoredAmount, CartTotal, PricedLines, RequestOf, WithinCart, Countable, PricesFit;
    CartRequest();
    TwoPiecesShown();
    ReachPublished();
    es := ReachWriting();
    var fs := es[|Creation()|..];
    Empty(ShopWith(5));
    CheckoutChargedAsShown(ShopWith(5), [], CartOfTwo, 1, None, NoFaults, 0, fs);
    RunConcat(ShopWith(5), Creation(), fs);
    assert es == Creation() + fs;
  }
}
