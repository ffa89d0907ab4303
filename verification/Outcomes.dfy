/** What a whole call leaves in the tables, column by column, and what each broker action and each failure
    does. */
module Outcomes {
  import opened Common
  import opened Stock
  import opened Protocol
  import opened Amounts
  import opened Money
  import opened Invariants
  import opened Ledger
  import opened Theorems
  import opened ShopService

  // ---- Creating an order

  /** Every quantity is one that an order may have. */
  predicate Orderable(items: seq<Item>) {
    forall i :: 0 <= i < |items| ==> 1 <= items[i].quantity <= 1000
  }

  /** Nothing but call frames has changed. */
  predicate Unchanged(s: State, t: State) {
    && t.products == s.products && t.orders == s.orders && t.processed == s.processed && t.payments == s.payments
    && t.queue == s.queue && t.dlq == s.dlq && t.published == s.published
    && t.deliveries == s.deliveries && t.cancels == s.cancels && t.authCalls == s.authCalls
  }

  /** The message of a new order: its first attempt, under the client's key or a random correlation id. */
  function FirstMessage(s: State, key: Option<Key>): Message {
    Message(|s.published|, |s.orders|, if key.Some? then ClientKey(key.value) else Random(|s.published|), 1)
  }

  lemma TakenKeyIff(orders: seq<Order>, key: Option<Key>)
    ensures UniqueViolated(orders, key) <==> KeyTaken(orders, key)
    ensures UniqueViolated(orders, key) <==> !KeyUnused(orders, key)
  {
  }

  /** The state in which a call that has passed its key check and its pre-check stands. */
  function WithCall(s: State, user: UserId, key: Option<Key>, items: seq<Item>, phase: CreatePhase): State {
    s.(creates := s.creates + [CreateCall(user, key, items, phase)])
  }

  lemma PhaseMoves(s: State, user: UserId, key: Option<Key>, items: seq<Item>, early: CreatePhase, late: CreatePhase)
    ensures SetCreate(WithCall(s, user, key, items, early), |s.creates|, late) == WithCall(s, user, key, items, late)
  {
  }

  lemma FreshKeyPasses(s: State, user: UserId, key: Option<Key>, items: seq<Item>)
    requires Orderable(items) && !KeyTaken(s.orders, key)
    ensures DoCheckKey(DoStartCreate(s, user, key, items), |s.creates|) == WithCall(s, user, key, items, KeyFree)
  {
    hide SameBooks, NoNewPayer, FindKey, KeyTaken;
    TakenKeyIff(s.orders, key);
    PhaseMoves(s, user, key, items, Started, KeyFree);
  }

  predicate Live(p: ProductId, products: Table) {
    p in products && !products[p].deleted
  }

  /** The pre-check passes exactly when every product that is asked for is in the table and not deleted. */
  lemma PrecheckIff(s: State, user: UserId, key: Option<Key>, items: seq<Item>)
    ensures DoPrecheck(WithCall(s, user, key, items, KeyFree), |s.creates|)
         == WithCall(s, user, key, items,
              if forall i :: 0 <= i < |items| ==> Live(items[i].product, s.products)
              then Prechecked else Thrown)
  {
    hide SameBooks, NoNewPayer;
    PhaseMoves(s, user, key, items, KeyFree, Prechecked);
    PhaseMoves(s, user, key, items, KeyFree, Thrown);
    LockedAllIff(items, s.products);
  }

  lemma LockedAllIff(items: seq<Item>, products: Table)
    ensures LockedRows(products, ProductIds(items)).Keys == ProductIds(items) <==>
            forall i :: 0 <= i < |items| ==> Live(items[i].product, products)
  {
    if LockedRows(products, ProductIds(items)).Keys == ProductIds(items) {
      forall i | 0 <= i < |items| ensures Live(items[i].product, products) {
        assert items[i].product in ProductIds(items);
      }
    }
  }

  /** Up to the transaction: the call stands before it, or has thrown and the lines cannot be in stock. */
  lemma EarlyPhase(s: State, user: UserId, key: Option<Key>, items: seq<Item>)
    requires Orderable(items) && !KeyTaken(s.orders, key)
    ensures var t := DoPrecheck(DoCheckKey(DoStartCreate(s, user, key, items), |s.creates|), |s.creates|);
            t == WithCall(s, user, key, items, Prechecked)
            || (t == WithCall(s, user, key, items, Thrown) && !InStock(items, s.products))
  {
    hide DoStartCreate, DoCheckKey, DoPrecheck, Orderable, KeyTaken;
    FreshKeyPasses(s, user, key, items);
    PrecheckIff(s, user, key, items);
  }

  /** The second half of a create call. */
  function RecoveredAndPublished(s: State, c: nat, faults: Faults): State {
    PublishStep(DoRecover(TransactionStep(s, c, faults), c), c, faults)
  }

  lemma RefusedCreate(s: State, user: UserId, key: Option<Key>, items: seq<Item>, faults: Faults)
    requires !KeyTaken(s.orders, key) && (!InStock(items, s.products) || faults.timesOut)
    ensures RecoveredAndPublished(WithCall(s, user, key, items, Prechecked), |s.creates|, faults)
         == WithCall(s, user, key, items, Thrown)
  {
    hide InStock, KeyTaken, SameBooks, NoNewPayer, DoCreateTx, PublishStep;
    var c, before := |s.creates|, WithCall(s, user, key, items, Prechecked);
    TakenKeyIff(s.orders, key);
    if !faults.timesOut {
      RefusedTx(before, c);
    }
    PhaseMoves(s, user, key, items, Prechecked, TxFailed(OtherError));
    PhaseMoves(s, user, key, items, TxFailed(OtherError), Thrown);
    StepsOver(WithCall(s, user, key, items, Thrown), c, faults);
  }

  lemma AcceptedCreate(s: State, user: UserId, key: Option<Key>, items: seq<Item>, faults: Faults)
    requires !KeyTaken(s.orders, key) && InStock(items, s.products) && !faults.timesOut
    ensures var c := |s.creates|;
            var before := WithCall(s, user, key, items, Prechecked);
            var t := RecoveredAndPublished(before, c, faults);
            && Placed(s, t, user, key, items)
            && t.creates == s.creates + [CreateCall(user, key, items, if faults.brokerDown then Thrown
                                                                      else Returned(|s.orders|))]
            && t.published == (if faults.brokerDown then s.published else s.published + [FirstMessage(s, key)])
            && t.queue == (if faults.brokerDown then s.queue else s.queue + multiset{FirstMessage(s, key)})
  {
    hide InStock, KeyTaken, SameBooks, NoNewPayer, DoCreateTx, DoRecover;
    var c, before := |s.creates|, WithCall(s, user, key, items, Prechecked);
    TakenKeyIff(s.orders, key);
    AcceptedTx(before, c);
    CallCommitted(DoCreateTx(before, c), c);
    PlacedInCall(s, DoCreateTx(before, c), user, key, items, Prechecked);
    hide Placed;
    PublishKeepsPlaced(s, DoCreateTx(before, c), c, user, key, items, faults);
  }

  lemma PlacedInCall(s: State, t: State, user: UserId, key: Option<Key>, items: seq<Item>, phase: CreatePhase)
    requires Placed(WithCall(s, user, key, items, phase), t, user, key, items)
    ensures Placed(s, t, user, key, items)
  {
    hide PricedAs, Quantity;
  }

  lemma PublishKeepsPlaced(s: State, t: State, c: nat, user: UserId, key: Option<Key>, items: seq<Item>, faults: Faults)
    requires Placed(s, t, user, key, items)
    ensures Placed(s, PublishStep(t, c, faults), user, key, items)
  {
    hide PricedAs, Quantity, SameBooks, NoNewPayer;
  }

  /** A create call that nothing interrupts, from any state with unique keys:
      - quantities outside 1 to 1000 are refused;
      - a key that an order has already gives that order;
      - otherwise it is refused when a line is not in stock or the transaction times out;
      - otherwise the order is placed, at the prices of its products, and its message is published; when
        the broker does not take the message, the order stays and the call throws all the same. */
  lemma CreateOutcome(s: State, user: UserId, key: Option<Key>, items: seq<Item>, faults: Faults)
    requires KeysUnique(s.orders)
    ensures var c, t := |s.creates|, Run(s, CreateEvents(user, key, items, |s.creates|, faults));
            && |t.creates| == c + 1
            && (!Orderable(items) ==> t.creates[c].phase == Thrown && Unchanged(s, t))
            && (Orderable(items) && KeyTaken(s.orders, key) ==>
                  && Unchanged(s, t)
                  && forall o :: 0 <= o < |s.orders| && s.orders[o].key == key ==> t.creates[c].phase == Returned(o))
            && (Orderable(items) && !KeyTaken(s.orders, key) && (!InStock(items, s.products) || faults.timesOut) ==>
                  t.creates[c].phase == Thrown && Unchanged(s, t))
            && (Orderable(items) && !KeyTaken(s.orders, key) && InStock(items, s.products) && !faults.timesOut ==>
                  && Placed(s, t, user, key, items)
                  && t.creates[c].phase == (if faults.brokerDown then Thrown else Returned(|s.orders|))
                  && t.published == (if faults.brokerDown then s.published else s.published + [FirstMessage(s, key)])
                  && t.queue == (if faults.brokerDown then s.queue else s.queue + multiset{FirstMessage(s, key)}))
  {
    hide Run, CreateEvents, InStock, Placed, DoCheckKey, DoPrecheck, TransactionStep, DoRecover, PublishStep,
         KeysUnique;
    var c := |s.creates|;
    CreateSteps(s, user, key, items, c, faults);
    if !Orderable(items) {
      NotOrderable(s, user, key, items, faults);
    } else if KeyTaken(s.orders, key) {
      TakenCreate(s, user, key, items, faults);
    } else {
      hide DoStartCreate, Orderable, KeyTaken;
      EarlyPhase(s, user, key, items);
      StepsOver(WithCall(s, user, key, items, Thrown), c, faults);
      if InStock(items, s.products) && !faults.timesOut {
        AcceptedCreate(s, user, key, items, faults);
      } else {
        RefusedCreate(s, user, key, items, faults);
      }
    }
  }

  lemma NotOrderable(s: State, user: UserId, key: Option<Key>, items: seq<Item>, faults: Faults)
    requires !Orderable(items)
    ensures Run(s, CreateEvents(user, key, items, |s.creates|, faults)) == WithCall(s, user, key, items, Thrown)
  {
    hide Run, CreateEvents, DoCheckKey, DoPrecheck, TransactionStep, DoRecover, PublishStep, SameBooks, NoNewPayer;
    var c := |s.creates|;
    CreateSteps(s, user, key, items, c, faults);
    assert DoStartCreate(s, user, key, items) == WithCall(s, user, key, items, Thrown);
    StepsOver(WithCall(s, user, key, items, Thrown), c, faults);
  }

  lemma TakenCreate(s: State, user: UserId, key: Option<Key>, items: seq<Item>, faults: Faults)
    requires KeysUnique(s.orders) && Orderable(items) && KeyTaken(s.orders, key)
    ensures var c, t := |s.creates|, Run(s, CreateEvents(user, key, items, |s.creates|, faults));
            && |t.creates| == c + 1 && Unchanged(s, t)
            && forall o :: 0 <= o < |s.orders| && s.orders[o].key == key ==> t.creates[c].phase == Returned(o)
  {
    hide Run, CreateEvents, DoPrecheck, TransactionStep, DoRecover, PublishStep, SameBooks, NoNewPayer;
    var c := |s.creates|;
    CreateSteps(s, user, key, items, c, faults);
    TakenKeyIff(s.orders, key);
    var found := FindKey(s.orders, key.value).value;
    assert DoStartCreate(s, user, key, items) == WithCall(s, user, key, items, Started);
    PhaseMoves(s, user, key, items, Started, Returned(found));
    assert DoCheckKey(WithCall(s, user, key, items, Started), c) == WithCall(s, user, key, items, Returned(found));
    StepsOver(WithCall(s, user, key, items, Returned(found)), c, faults);
    forall o | 0 <= o < |s.orders| && s.orders[o].key == key ensures o == found {
      assert s.orders[found].key == key;
    }
  }

  // ---- Handling a delivery

  datatype Fate =
    | AlreadyProcessed
    | NoSuchOrder
    | NotPending
    | NothingToPay
    | Unpaid
    | Paid

  /** A processed-message row with the message's id or correlation id. */
  ghost predicate SeenBefore(processed: set<ProcessedRow>, m: Message) {
    exists r :: r in processed && (r.message == m.id || r.correlation == m.correlation)
  }

  ghost predicate HasPayment(payments: seq<Payment>, o: OrderId) {
    exists p :: 0 <= p < |payments| && payments[p].order == o
  }

  /** The payments service grants the amount: it is positive, and it fits a numeric(12,2) column unless the
      order's payment is there already. */
  ghost predicate Grants(payments: seq<Payment>, o: OrderId, amount: int) {
    0 < amount && (HasPayment(payments, o) || amount < 1_000_000_000_000)
  }

  ghost function FateOf(s: State, m: Message, reached: bool): Fate {
    if SeenBefore(s.processed, m) then AlreadyProcessed
    else if m.order >= |s.orders| then NoSuchOrder
    else if s.orders[m.order].status != PENDING then NotPending
    else if s.paymentsDisabled || s.orders[m.order].payment.Some? then NothingToPay
    else if reached && Grants(s.payments, m.order, SentCents(s.orders[m.order].lines)) then Paid
    else Unpaid
  }

  /** The message is acked and goes nowhere else. */
  predicate JustAcked(s: State, t: State, d: nat)
    requires d < |s.deliveries|
  {
    && t.deliveries == s.deliveries[d := Delivery(s.deliveries[d].message, false, Finished)]
    && t.queue == s.queue && t.dlq == s.dlq
  }

  /** The message is acked after it has been queued again with the next attempt, up to attempt 3, or copied
      to the dead-letter queue. */
  predicate ReroutedAndAcked(s: State, t: State, d: nat)
    requires d < |s.deliveries|
  {
    var m := s.deliveries[d].message;
    && t.deliveries == s.deliveries[d := Delivery(m, false, Finished)]
    && t.queue == (if m.attempt < 3 then s.queue + multiset{m.(attempt := m.attempt + 1)} else s.queue)
    && t.dlq == (if m.attempt < 3 then s.dlq else s.dlq + multiset{m})
  }

  /** A failed handler queues the message again with the next attempt, up to attempt 3, or copies it to the
      dead-letter queue. */
  lemma ReroutedTo(s: State, d: nat)
    requires d < |s.deliveries| && s.deliveries[d].phase.Errored?
    ensures var m, t := s.deliveries[d].message, DoReroute(s, d);
            && t == s.(deliveries := t.deliveries, queue := t.queue, dlq := t.dlq)
            && t.deliveries == s.deliveries[d := s.deliveries[d].(phase := Rerouted)]
            && t.queue == (if m.attempt < 3 then s.queue + multiset{m.(attempt := m.attempt + 1)} else s.queue)
            && t.dlq == (if m.attempt < 3 then s.dlq else s.dlq + multiset{m})
  {
    hide SameBooks, NoNewPayer;
  }

  lemma AckedIs(s: State, d: nat)
    requires d < |s.deliveries| && (s.deliveries[d].phase.Handled? || s.deliveries[d].phase.Rerouted?)
    ensures DoAck(s, d) == s.(deliveries := s.deliveries[d := Delivery(s.deliveries[d].message, false, Finished)])
  {
    hide SameBooks, NoNewPayer;
  }

  lemma UpdatedTwice(deliveries: seq<Delivery>, d: nat, x: Delivery, y: Delivery)
    requires d < |deliveries|
    ensures deliveries[d := x][d := y] == deliveries[d := y]
  {
  }

  lemma FinishHandled(s: State, w: State, d: nat)
    requires d < |s.deliveries| && s.queue == w.queue && s.dlq == w.dlq
    requires w.deliveries == s.deliveries[d := s.deliveries[d].(phase := Handled)]
    ensures JustAcked(s, DoAck(w, d), d) && DoAck(w, d) == w.(deliveries := DoAck(w, d).deliveries)
  {
    hide DoAck;
    AckedIs(w, d);
    UpdatedTwice(s.deliveries, d, w.deliveries[d], Delivery(s.deliveries[d].message, false, Finished));
  }

  lemma FinishErrored(s: State, w: State, d: nat)
    requires d < |s.deliveries| && s.queue == w.queue && s.dlq == w.dlq
    requires w.deliveries == s.deliveries[d := s.deliveries[d].(phase := Errored)]
    ensures var t := DoAck(DoReroute(w, d), d);
            ReroutedAndAcked(s, t, d) && t == w.(deliveries := t.deliveries, queue := t.queue, dlq := t.dlq)
  {
    hide DoAck, DoReroute;
    ReroutedTo(w, d);
    AckedIs(DoReroute(w, d), d);
    UpdatedTwice(s.deliveries, d, w.deliveries[d], s.deliveries[d].(phase := Rerouted));
    var m := s.deliveries[d].message;
    UpdatedTwice(s.deliveries, d, s.deliveries[d].(phase := Rerouted), Delivery(m, false, Finished));
  }

  /** What the two events of the payments service make of a new authorization call. */
  lemma ServerAnswers(s: State, a: nat, o: OrderId, amount: int) returns (p: PaymentId)
    requires a < |s.authCalls| && s.authCalls[a] == AuthCall(o, amount, Sent)
    ensures var t := DoServerInsert(DoServerFind(s, a), a);
            if Grants(s.payments, o, amount) then
              && t == s.(authCalls := s.authCalls[a := AuthCall(o, amount, Replied(p))], payments := t.payments)
              && p < |t.payments| && t.payments[p].order == o
              && t.payments == (if HasPayment(s.payments, o) then s.payments
                                else s.payments + [Payment(o, StoredAmount(amount))])
              && (!HasPayment(s.payments, o) ==> p == |s.payments|)
            else t == s.(authCalls := s.authCalls[a := AuthCall(o, amount, Refused)])
  {
    hide SameBooks, NoNewPayer, StoredAmount, FitsColumn;
    var found := FindPayment(s.payments, o);
    p := if found.Some? then found.value else |s.payments|;
    if 0 < amount && found.None? {
      RefusedIff(amount);
      var asked := s.authCalls[a := AuthCall(o, amount, FoundNone)];
      assert forall phase :: asked[a := asked[a].(phase := phase)] == s.authCalls[a := AuthCall(o, amount, phase)];
    }
  }

  /** The worker has recorded the message, and nothing else than the given orders has changed. */
  predicate Recorded(s: State, t: State, m: Message, orders: seq<Order>) {
    && t.products == s.products && t.orders == orders && t.overruns == s.overruns
    && t.processed == s.processed + {ProcessedRow(m.id, m.correlation, m.order)}
  }

  /** A payment is in place: the order's earlier one, or a new row over its total. */
  ghost predicate PaidIn(s: State, t: State, m: Message, p: PaymentId)
    requires m.order < |s.orders|
  {
    && p < |t.payments| && t.payments[p].order == m.order
    && t.payments == (if HasPayment(s.payments, m.order) then s.payments
                      else s.payments + [Payment(m.order, StoredAmount(SentCents(s.orders[m.order].lines)))])
    && t.paid == s.paid + [m.order]
    && Recorded(s, t, m, s.orders[m.order := s.orders[m.order].(status := PAID, payment := Some(p))])
  }

  predicate SameMoney(s: State, t: State) {
    t.payments == s.payments && t.paid == s.paid
  }

  /** What each fate leaves behind. */
  ghost predicate Leaves(s: State, t: State, d: nat, reached: bool)
    requires d < |s.deliveries|
  {
    var m := s.deliveries[d].message;
    match FateOf(s, m, reached)
    case AlreadyProcessed =>
      JustAcked(s, t, d) && SameMoney(s, t) && SameBooks(s, t)
    case NoSuchOrder =>
      ReroutedAndAcked(s, t, d) && SameMoney(s, t) && SameBooks(s, t)
    case NotPending =>
      JustAcked(s, t, d) && SameMoney(s, t) && Recorded(s, t, m, s.orders)
    case NothingToPay =>
      && JustAcked(s, t, d) && SameMoney(s, t)
      && Recorded(s, t, m, s.orders[m.order := s.orders[m.order].(status := PROCESSED)])
    case Unpaid =>
      && ReroutedAndAcked(s, t, d) && SameMoney(s, t)
      && Recorded(s, t, m, s.orders[m.order := s.orders[m.order].(status := PROCESSED)])
    case Paid =>
      JustAcked(s, t, d) && exists p :: PaidIn(s, t, m, p)
  }

  lemma SeenIff(s: State, m: Message)
    ensures SeenBefore(s.processed, m) <==> Duplicate(s.processed, m)
  {
  }

  /** The whole handling after the worker's transaction. */
  function Closing(w: State, d: nat, a: nat, reached: bool): State {
    var begun := DoStartAuthorize(w, d);
    var replied := if reached then AfterPayment(begun, d, a) else begun;
    DoAck(DoReroute(DoAuthorizeFails(replied, d), d), d)
  }

  lemma HandlingIs(s: State, d: nat, a: nat, reached: bool)
    requires d < |s.deliveries| && s.deliveries[d].phase.Received? && !InsertBlocked(s.deliveries, d)
    ensures Run(s, HandlerEvents(d, a, reached)) == Closing(WholeTransaction(s, d), d, a, reached)
  {
    hide Run, HandlerEvents, DoWorkerBegin, DoWorkerCommit, DoStartAuthorize, AfterPayment, DoAuthorizeFails, DoReroute,
         DoAck, WholeTransaction, InsertBlocked;
    HandlerSteps(s, d, a, reached);
    UninterruptedTransaction(s, d);
  }

  lemma ClosingHandled(w: State, d: nat, reached: bool)
    requires d < |w.deliveries| && w.deliveries[d].phase.Handled?
    ensures Closing(w, d, |w.authCalls|, reached) == DoAck(w, d)
  {
    hide DoStartAuthorize, DoServerFind, DoServerInsert, DoAuthorizeReturns, DoPaymentWrite, DoAuthorizeFails,
         DoReroute, DoAck;
    HandledOnlyAcks(w, d);
    NoCallNoService(w, |w.authCalls|);
  }

  lemma ClosingErrored(w: State, d: nat, reached: bool)
    requires d < |w.deliveries| && w.deliveries[d].phase.Errored?
    ensures Closing(w, d, |w.authCalls|, reached) == DoAck(DoReroute(w, d), d)
  {
    hide DoStartAuthorize, DoServerFind, DoServerInsert, DoAuthorizeReturns, DoPaymentWrite, DoAuthorizeFails,
         DoReroute, DoAck;
    ErroredOnlyReroutes(w, d);
    NoCallNoService(w, |w.authCalls|);
  }

  lemma AskedAmount(w: State, d: nat)
    requires d < |w.deliveries| && w.deliveries[d].phase.ToAuthorize? && w.deliveries[d].message.order < |w.orders|
    ensures var o, a := w.deliveries[d].message.order, |w.authCalls|;
            DoStartAuthorize(w, d) == w.(
              deliveries := w.deliveries[d := w.deliveries[d].(phase := Authorizing(a))],
              authCalls := w.authCalls + [AuthCall(o, SentCents(w.orders[o].lines), Sent)])
  {
    hide SameBooks, NoNewPayer, SentCents;
  }

  /** The payment does not come about: the handler's error path, with the tables as they are. */
  lemma UnpaidClosing(w: State, begun: State, d: nat, a: nat)
    requires d < |w.deliveries| && begun == w.(deliveries := begun.deliveries, authCalls := begun.authCalls)
    requires begun.deliveries == w.deliveries[d := w.deliveries[d].(phase := Authorizing(a))]
    ensures var t := DoAck(DoReroute(DoAuthorizeFails(begun, d), d), d);
            && ReroutedAndAcked(w, t, d)
            && t == w.(deliveries := t.deliveries, authCalls := t.authCalls, queue := t.queue, dlq := t.dlq)
  {
    hide DoAck, DoReroute, DoAuthorizeFails, ReroutedAndAcked;
    FailsWhileAuthorizing(begun, d, a);
    UpdatedTwice(w.deliveries, d, begun.deliveries[d], w.deliveries[d].(phase := Errored));
    FinishErrored(w, SetHandler(begun, d, Errored), d);
  }

  lemma PaidClosing(w: State, begun: State, d: nat, a: nat, p: PaymentId)
    requires d < |w.deliveries| && w.deliveries[d].message.order < |w.orders|
    requires begun == w.(deliveries := begun.deliveries, authCalls := begun.authCalls, payments := begun.payments)
    requires begun.deliveries == w.deliveries[d := w.deliveries[d].(phase := Authorizing(a))]
    requires a < |begun.authCalls| && begun.authCalls[a].phase == Replied(p)
    requires w.orders[w.deliveries[d].message.order].status != CANCELLED
    ensures var o := w.deliveries[d].message.order;
            var written := DoPaymentWrite(DoAuthorizeReturns(begun, d), d);
            var t := DoAck(DoReroute(DoAuthorizeFails(written, d), d), d);
            && JustAcked(w, t, d)
            && t == w.(deliveries := t.deliveries, authCalls := t.authCalls, payments := begun.payments,
                       orders := w.orders[o := w.orders[o].(status := PAID, payment := Some(p))],
                       paid := w.paid + [o])
  {
    hide DoAck, DoReroute, DoAuthorizeFails, DoPaymentWrite, DoAuthorizeReturns, JustAcked;
    WriteAfterReturn(begun, d, p);
    var written := DoPaymentWrite(DoAuthorizeReturns(begun, d), d);
    UpdatedTwice(w.deliveries, d, begun.deliveries[d], w.deliveries[d].(phase := Handled));
    HandledOnlyAcks(written, d);
    FinishHandled(w, written, d);
  }

  lemma ClosingToAuthorize(w: State, d: nat, reached: bool) returns (p: PaymentId)
    requires d < |w.deliveries| && w.deliveries[d].phase.ToAuthorize? && w.deliveries[d].message.order < |w.orders|
    requires w.orders[w.deliveries[d].message.order].status != CANCELLED
    ensures var o := w.deliveries[d].message.order;
            var t := Closing(w, d, |w.authCalls|, reached);
            if reached && Grants(w.payments, o, SentCents(w.orders[o].lines)) then
              && JustAcked(w, t, d) && t.products == w.products && t.processed == w.processed
              && t.overruns == w.overruns && t.paid == w.paid + [o]
              && t.orders == w.orders[o := w.orders[o].(status := PAID, payment := Some(p))]
              && p < |t.payments| && t.payments[p].order == o
              && t.payments == (if HasPayment(w.payments, o) then w.payments
                                else w.payments + [Payment(o, StoredAmount(SentCents(w.orders[o].lines)))])
            else
              ReroutedAndAcked(w, t, d) && SameMoney(w, t) && SameBooks(w, t)
  {
    hide DoStartAuthorize, DoServerFind, DoServerInsert, DoAuthorizeReturns, DoPaymentWrite, DoAuthorizeFails,
         DoReroute, DoAck, JustAcked, ReroutedAndAcked, Grants, HasPayment, SentCents, StoredAmount;
    var o, a := w.deliveries[d].message.order, |w.authCalls|;
    var amount := SentCents(w.orders[o].lines);
    var begun := DoStartAuthorize(w, d);
    AskedAmount(w, d);
    p := 0;
    if !reached {
      UnpaidClosing(w, begun, d, a);
    } else {
      p := ServerAnswers(begun, a, o, amount);
      var answered := DoServerInsert(DoServerFind(begun, a), a);
      if Grants(w.payments, o, amount) {
        PaidClosing(w, answered, d, a, p);
      } else {
        RefusedStaysAuthorizing(answered, d, a);
        UnpaidClosing(w, answered, d, a);
      }
    }
  }

  lemma SameMessageAcked(s: State, w: State, t: State, d: nat)
    requires d < |s.deliveries| && s.queue == w.queue && s.dlq == w.dlq
    requires |w.deliveries| == |s.deliveries| && w.deliveries[d].message == s.deliveries[d].message
    requires w.deliveries == s.deliveries[d := w.deliveries[d]]
    ensures JustAcked(w, t, d) ==> JustAcked(s, t, d)
    ensures ReroutedAndAcked(w, t, d) ==> ReroutedAndAcked(s, t, d)
  {
    UpdatedTwice(s.deliveries, d, w.deliveries[d], Delivery(s.deliveries[d].message, false, Finished));
  }

  /** The worker's transaction, case by case. */
  lemma TransactionIs(s: State, d: nat)
    requires d < |s.deliveries|
    ensures var m, w := s.deliveries[d].message, WholeTransaction(s, d);
            && |w.deliveries| == |s.deliveries|
            && w == s.(deliveries := s.deliveries[d := s.deliveries[d].(phase := w.deliveries[d].phase)],
                       orders := w.orders, processed := w.processed)
            && (Duplicate(s.processed, m) ==>
                  w.deliveries[d].phase == Handled && w.orders == s.orders && w.processed == s.processed)
            && (!Duplicate(s.processed, m) && m.order >= |s.orders| ==>
                  w.deliveries[d].phase == Errored && w.orders == s.orders && w.processed == s.processed)
            && (!Duplicate(s.processed, m) && m.order < |s.orders| ==>
                  w.processed == s.processed + {ProcessedRow(m.id, m.correlation, m.order)})
            && (!Duplicate(s.processed, m) && m.order < |s.orders| && s.orders[m.order].status != PENDING ==>
                  w.deliveries[d].phase == Handled && w.orders == s.orders)
            && (!Duplicate(s.processed, m) && m.order < |s.orders| && s.orders[m.order].status == PENDING ==>
                  && w.orders == s.orders[m.order := s.orders[m.order].(status := PROCESSED)]
                  && w.deliveries[d].phase == if s.paymentsDisabled || s.orders[m.order].payment.Some? then Handled
                                              else ToAuthorize)
  {
    hide Duplicate;
  }

  lemma UnhandledOutcome(s: State, d: nat, reached: bool)
    requires d < |s.deliveries| && s.deliveries[d].phase.Received?
    requires |WholeTransaction(s, d).deliveries| == |s.deliveries|
    requires !WholeTransaction(s, d).deliveries[d].phase.ToAuthorize?
    ensures Leaves(s, Closing(WholeTransaction(s, d), d, |s.authCalls|, reached), d, reached)
  {
    hide Closing, DoAck, DoReroute, JustAcked, ReroutedAndAcked, Duplicate, SeenBefore, Grants, SentCents,
         WholeTransaction;
    var w := WholeTransaction(s, d);
    TransactionIs(s, d);
    SeenIff(s, s.deliveries[d].message);
    if w.deliveries[d].phase.Handled? {
      ClosingHandled(w, d, reached);
      FinishHandled(s, w, d);
    } else {
      ClosingErrored(w, d, reached);
      FinishErrored(s, w, d);
    }
  }

  lemma HandledOutcome(s: State, d: nat, reached: bool)
    requires d < |s.deliveries| && s.deliveries[d].phase.Received?
    requires |WholeTransaction(s, d).deliveries| == |s.deliveries|
    requires WholeTransaction(s, d).deliveries[d].phase.ToAuthorize?
    ensures Leaves(s, Closing(WholeTransaction(s, d), d, |s.authCalls|, reached), d, reached)
  {
    hide Closing, DoAck, DoReroute, JustAcked, ReroutedAndAcked, Duplicate, SeenBefore, Grants, SentCents, HasPayment,
         StoredAmount, WholeTransaction;
    var m, w := s.deliveries[d].message, WholeTransaction(s, d);
    TransactionIs(s, d);
    SeenIff(s, m);
    var p := ClosingToAuthorize(w, d, reached);
    var t := Closing(w, d, |s.authCalls|, reached);
    SameMessageAcked(s, w, t, d);
    if FateOf(s, m, reached).Paid? {
      assert s.orders[m.order := w.orders[m.order]][m.order := t.orders[m.order]] == t.orders;
      assert PaidIn(s, t, m, p);
    }
  }

  /** No other transaction is open that inserts a row for the same message. */
  predicate NoRival(deliveries: seq<Delivery>, d: nat)
    requires d < |deliveries|
  {
    forall e :: 0 <= e < |deliveries| && e != d && deliveries[e].phase.InTransaction? ==>
      && deliveries[e].message.id != deliveries[d].message.id
      && deliveries[e].message.correlation != deliveries[d].message.correlation
  }

  lemma NoRivalIff(deliveries: seq<Delivery>, d: nat)
    requires d < |deliveries|
    ensures NoRival(deliveries, d) <==> !InsertBlocked(deliveries, d)
  {
  }

  /** A delivery that nothing interrupts, from any state: every fate leaves behind exactly this. */
  lemma HandlerOutcome(s: State, d: nat, reached: bool)
    requires d < |s.deliveries| && s.deliveries[d].phase.Received? && NoRival(s.deliveries, d)
    ensures Leaves(s, Run(s, HandlerEvents(d, |s.authCalls|, reached)), d, reached)
  {
    hide Run, HandlerEvents, Closing, Leaves, WholeTransaction, InsertBlocked;
    NoRivalIff(s.deliveries, d);
    HandlingIs(s, d, |s.authCalls|, reached);
    TransactionIs(s, d);
    if WholeTransaction(s, d).deliveries[d].phase.ToAuthorize? {
      HandledOutcome(s, d, reached);
    } else {
      UnhandledOutcome(s, d, reached);
    }
  }

  // ---- Cancelling an order

  /** The pieces of a product in the lines of an order. */
  function Pieces(lines: seq<Line>, p: ProductId): int {
    if lines == [] then 0
    else
      var last := lines[|lines| - 1];
      Pieces(lines[..|lines| - 1], p) + if last.item.product == p then last.item.quantity else 0
  }

  lemma {:induction false} PiecesAreQuantity(lines: seq<Line>, p: ProductId)
    ensures Pieces(lines, p) == Quantity(ItemsOf(lines), p)
  {
    if lines != [] {
      var front := lines[..|lines| - 1];
      PiecesAreQuantity(front, p);
      assert ItemsOf(lines)[..|lines| - 1] == ItemsOf(front);
    }
  }

  /** Every row that is not deleted has its pieces back. */
  predicate BackInStock(products: Table, later: Table, lines: seq<Line>) {
    && later.Keys == products.Keys
    && forall p :: p in products ==>
         later[p] == if products[p].deleted then products[p]
                     else products[p].(stock := products[p].stock + Pieces(lines, p))
  }

  lemma GivenBackIs(products: Table, lines: seq<Line>)
    ensures BackInStock(products, GivenBack(products, ItemsOf(lines)), lines)
  {
    hide Quantity, Pieces, ItemsOf;
    forall p | p in products ensures Pieces(lines, p) == Quantity(ItemsOf(lines), p) {
      PiecesAreQuantity(lines, p);
    }
  }

  /** A cancellation that nothing interrupts: the owner of an order that is PENDING, PROCESSED or PAID cancels
      it and its pieces go back; anybody else, and every other order, is refused without any change. */
  lemma CancelOutcome(s: State, user: UserId, o: OrderId)
    ensures var k, t := |s.cancels|, Run(s, CancelEvents(user, o, |s.cancels|));
            && |t.cancels| == k + 1 && t.processed == s.processed && t.payments == s.payments
            && t.queue == s.queue && t.dlq == s.dlq && t.deliveries == s.deliveries
            && if o < |s.orders| && s.orders[o].user == user && s.orders[o].status in {PENDING, PROCESSED, PAID} then
                 && t.cancels[k] == CancelCall(user, o, CancelDone)
                 && t.orders == s.orders[o := s.orders[o].(status := CANCELLED)]
                 && BackInStock(s.products, t.products, s.orders[o].lines)
               else
                 t.cancels[k] == CancelCall(user, o, CancelThrown) && t.orders == s.orders && t.products == s.products
  {
    hide Run, CancelEvents, GivenBack, ItemsOf, BackInStock;
    if o < |s.orders| {
      var status := s.orders[o].status;
      assert status == PENDING || status == PROCESSED || status == PAID || status == CANCELLED || status == CREATED;
    }
    if Cancellable(s, user, o) {
      UninterruptedCancel(s, user, o);
      GivenBackIs(s.products, s.orders[o].lines);
    } else {
      RefusedCancel(s, user, o);
    }
  }

  // ---- Saves from earlier reads

  /** A cancellation saves the order as it read it, whatever has happened to it since; only the payment id may
      survive. */
  lemma StaleCancel(s: State, k: nat, keepPayment: bool)
    requires k < |s.cancels| && s.cancels[k].phase.Loaded? && s.cancels[k].order < |s.orders|
    ensures var o, read, t := s.cancels[k].order, s.cancels[k].phase.snapshot, Step(s, CancelCommit(k, keepPayment));
            && |t.orders| == |s.orders| && t.cancels == s.cancels[k := s.cancels[k].(phase := CancelDone)]
            && (forall i :: 0 <= i < |s.orders| && i != o ==> t.orders[i] == s.orders[i])
            && t.orders[o] == Order(read.user, read.key, read.lines, CANCELLED,
                                    if keepPayment then s.orders[o].payment else read.payment)
            && BackInStock(s.products, t.products, read.lines)
  {
    CommitStep(s, k, keepPayment);
    GivenBackIs(s.products, s.cancels[k].phase.snapshot.lines);
    hide Step, GivenBack, ItemsOf, BackInStock;
  }

  lemma CommitStep(s: State, k: nat, keepPayment: bool)
    ensures Step(s, CancelCommit(k, keepPayment)) == DoCancelCommit(s, k, keepPayment)
  {
    hide DoCancelCommit;
  }

  /** So does the worker: it saves PROCESSED over whatever the order has become since it read it PENDING. */
  lemma StaleWorker(s: State, d: nat)
    requires d < |s.deliveries| && s.deliveries[d].phase.InTransaction? && s.deliveries[d].message.order < |s.orders|
    ensures var m, read, t := s.deliveries[d].message, s.deliveries[d].phase.snapshot, Step(s, WorkerCommit(d));
            && t.processed == s.processed + {ProcessedRow(m.id, m.correlation, m.order)} && t.products == s.products
            && |t.orders| == |s.orders|
            && (forall i :: 0 <= i < |s.orders| && i != m.order ==> t.orders[i] == s.orders[i])
            && t.orders[m.order] == (if read.status == PENDING
                                     then Order(read.user, read.key, read.lines, PROCESSED, read.payment)
                                     else s.orders[m.order])
  {
    WorkerCommitStep(s, d);
    hide Step;
  }

  lemma WorkerCommitStep(s: State, d: nat)
    ensures Step(s, WorkerCommit(d)) == DoWorkerCommit(s, d)
  {
    hide DoWorkerCommit;
  }

  // ---- The broker's copies

  /** The messages that deliveries still answer for. */
  function Unacked(deliveries: seq<Delivery>): multiset<Message> {
    if deliveries == [] then multiset{}
    else
      var last := deliveries[|deliveries| - 1];
      Unacked(deliveries[..|deliveries| - 1]) + if last.unacked then multiset{last.message} else multiset{}
  }

  /** Every message that the broker keeps outside the dead-letter queue. */
  function Kept(s: State): multiset<Message> {
    s.queue + Unacked(s.deliveries)
  }

  lemma {:induction false} UnackedUpdate(deliveries: seq<Delivery>, d: nat, x: Delivery)
    requires d < |deliveries| && x.message == deliveries[d].message && (x.unacked ==> deliveries[d].unacked)
    ensures Unacked(deliveries) == Unacked(deliveries[d := x])
              + if deliveries[d].unacked && !x.unacked then multiset{x.message} else multiset{}
  {
    var n := |deliveries| - 1;
    if d < n {
      assert deliveries[d := x][..n] == deliveries[..n][d := x];
      UnackedUpdate(deliveries[..n], d, x);
    } else {
      assert deliveries[d := x][..n] == deliveries[..n];
    }
  }

  lemma UnackedAppend(deliveries: seq<Delivery>, x: Delivery)
    ensures Unacked(deliveries + [x]) == Unacked(deliveries) + if x.unacked then multiset{x.message} else multiset{}
  {
    assert (deliveries + [x])[..|deliveries|] == deliveries;
  }

  /** Handing a message to a worker only moves it: it is in the queue or with a worker. */
  lemma DeliveryMoves(s: State, m: Message)
    requires m in s.queue
    ensures var t := Step(s, Deliver(m));
            && Kept(t) == Kept(s)
            && t == s.(queue := s.queue - multiset{m}, deliveries := s.deliveries + [Delivery(m, true, Received)])
  {
    hide Unacked;
    BrokerSteps(s, m, 0);
    UnackedAppend(s.deliveries, Delivery(m, true, Received));
    hide Step;
  }

  /** So does taking it back, whatever its handler is doing: the same message, with the same attempt. */
  lemma RedeliveryMoves(s: State, d: nat)
    requires d < |s.deliveries| && s.deliveries[d].unacked
    ensures var m, t := s.deliveries[d].message, Step(s, Redeliver(d));
            && Kept(t) == Kept(s)
            && t == s.(queue := s.queue + multiset{m},
                       deliveries := s.deliveries[d := Delivery(m, false, s.deliveries[d].phase)])
  {
    hide Unacked;
    BrokerSteps(s, s.deliveries[d].message, d);
    UnackedUpdate(s.deliveries, d, s.deliveries[d].(unacked := false));
    hide Step;
  }

  lemma BrokerSteps(s: State, m: Message, d: nat)
    ensures Step(s, Deliver(m)) == DoDeliver(s, m) && Step(s, Redeliver(d)) == DoRedeliver(s, d)
  {
    hide DoDeliver, DoRedeliver;
  }

  lemma FailureSteps(s: State, d: nat)
    ensures Step(s, WorkerFails(d)) == DoWorkerFails(s, d) && Step(s, AckFails(d)) == DoAckFails(s, d)
    ensures Step(s, Crash(d)) == DoCrash(s, d)
  {
    hide SameBooks, NoNewPayer, DoStartCreate, DoCheckKey, DoPrecheck, DoCreateTx, DoCreateTxFails, DoRecover,
         DoPublish, DoPublishFails, DoStartCancel, DoCancelGuard, DoCancelLoad, DoCancelCommit, DoCancelFails,
         DoDeliver, DoWorkerBegin, DoWorkerCommit, DoWorkerFails, DoStartAuthorize, DoAuthorizeFails,
         DoAuthorizeReturns, DoPaymentWrite, DoReroute, DoAck, DoAckFails, DoCrash, DoRedeliver, DoServerFind,
         DoServerInsert, DoServerFails, DoAdminWrite;
  }

  /** The handler phases in which an exception can leave the work on a message: the worker's transaction, the
      payment, or the ack itself. */
  predicate CanFail(phase: HandlerPhase) {
    phase.Received? || phase.InTransaction? || phase.ToAuthorize? || phase.Authorizing? || phase.Writing?
    || phase.Handled?
  }

  /** The failure that belongs to the phase. */
  function FailureOf(phase: HandlerPhase, d: nat): Event {
    if phase.Received? || phase.InTransaction? then WorkerFails(d)
    else if phase.Handled? then AckFails(d)
    else AuthorizeFails(d)
  }

  lemma FailureErrs(s: State, d: nat)
    requires d < |s.deliveries| && CanFail(s.deliveries[d].phase)
    ensures Step(s, FailureOf(s.deliveries[d].phase, d)) == SetHandler(s, d, Errored)
  {
    FailureSteps(s, d);
    ClosingEvents(s, d);
    hide Step, SameBooks, NoNewPayer;
  }

  /** Whatever fails, and whenever: no table changes, and the message is queued again with the next attempt
      while its attempt is below 3 and copied to the dead-letter queue otherwise; then it is acked. */
  lemma FailureIsRerouted(s: State, d: nat)
    requires d < |s.deliveries| && CanFail(s.deliveries[d].phase)
    ensures var t := Run(s, [FailureOf(s.deliveries[d].phase, d), Reroute(d), Ack(d)]);
            && ReroutedAndAcked(s, t, d) && SameBooks(s, t) && t.payments == s.payments
            && t.authCalls == s.authCalls && t.creates == s.creates && t.cancels == s.cancels
  {
    hide Run, Step, DoReroute, DoAck, ReroutedAndAcked;
    var failure := FailureOf(s.deliveries[d].phase, d);
    ThreeSteps(s, [failure, Reroute(d), Ack(d)]);
    FailureErrs(s, d);
    var errored := SetHandler(s, d, Errored);
    ClosingEvents(errored, d);
    ClosingEvents(DoReroute(errored, d), d);
    FinishErrored(s, errored, d);
  }

  lemma CallerFailureSteps(s: State, k: nat, a: nat)
    ensures Step(s, CancelFails(k)) == DoCancelFails(s, k) && Step(s, ServerFails(a)) == DoServerFails(s, a)
  {
    hide SameBooks, NoNewPayer, DoStartCreate, DoCheckKey, DoPrecheck, DoCreateTx, DoCreateTxFails, DoRecover,
         DoPublish, DoPublishFails, DoStartCancel, DoCancelGuard, DoCancelLoad, DoCancelCommit, DoCancelFails,
         DoDeliver, DoWorkerBegin, DoWorkerCommit, DoWorkerFails, DoStartAuthorize, DoAuthorizeFails,
         DoAuthorizeReturns, DoPaymentWrite, DoReroute, DoAck, DoAckFails, DoCrash, DoRedeliver, DoServerFind,
         DoServerInsert, DoServerFails, DoAdminWrite;
  }

  /** A cancellation that fails has thrown and changed no table; a payments service that fails has refused, and
      its caller does not come to write a payment. */
  lemma CallFailures(s: State, k: nat, a: nat, d: nat)
    requires k < |s.cancels| && (s.cancels[k].phase.Guarded? || s.cancels[k].phase.Loaded?)
    requires a < |s.authCalls| && (s.authCalls[a].phase.Sent? || s.authCalls[a].phase.FoundNone?)
    requires d < |s.deliveries| && s.deliveries[d].phase == Authorizing(a)
    ensures Step(s, CancelFails(k)) == s.(cancels := s.cancels[k := s.cancels[k].(phase := CancelThrown)])
    ensures Step(s, ServerFails(a)) == s.(authCalls := s.authCalls[a := s.authCalls[a].(phase := Refused)])
    ensures Step(Step(s, ServerFails(a)), AuthorizeReturns(d)) == Step(s, ServerFails(a))
  {
    CallerFailureSteps(s, k, a);
    PaymentEvents(Step(s, ServerFails(a)), d);
    hide Step, SameBooks, NoNewPayer;
  }

  /** A worker that dies leaves its delivery unacked and everything else as it was. */
  lemma CrashLeaves(s: State, d: nat)
    requires d < |s.deliveries| && !s.deliveries[d].phase.Finished?
    ensures Step(s, Crash(d)) == s.(deliveries := s.deliveries[d := s.deliveries[d].(phase := Crashed)])
  {
    FailureSteps(s, d);
    hide Step, SameBooks, NoNewPayer;
  }

  // ---- Where an order comes from

  /** Every stored order goes back to one transaction of one create call: the call was acceptable when the
      transaction ran, and the order has the call's user and key and its items at the prices that their
      products had then. */
  lemma {:induction false} OrderOrigin(s0: State, es: seq<Event>, o: OrderId) returns (k: nat)
    requires Initial(s0) && o < |Run(s0, es).orders|
    ensures k < |es| && es[k].CreateTx?
    ensures FromCall(Run(s0, es[..k]), es[k].c, Run(s0, es).orders[o], o)
  {
    hide Run, Step, Inv, FromCall;
    if es == [] {
      Empty(s0);
      assert false;
    } else {
      var n := |es| - 1;
      var front, last := es[..n], es[n];
      assert es == front + [last];
      Then(s0, front, last);
      EveryRunKeepsInv(s0, front);
      var s := Run(s0, front);
      if o < |s.orders| {
        k := OrderOrigin(s0, front, o);
        assert front[..k] == es[..k];
        StepEvolves(s, last);
        SameOrigin(Run(s0, es[..k]), es[k].c, s.orders[o], Run(s0, es).orders[o], o);
      } else {
        k := n;
        InitialInv(s0);
        RunQuantities(s0, front);
        NewOrderIs(s, last, o);
      }
    }
  }

  /** The order is the one that call c's transaction places in state s. */
  predicate FromCall(s: State, c: nat, order: Order, o: OrderId) {
    && c < |s.creates| && s.creates[c].phase.Prechecked? && o == |s.orders|
    && Orderable(s.creates[c].items) && Acceptable(s, s.creates[c])
    && order.user == s.creates[c].user && order.key == s.creates[c].key
    && |order.lines| == |s.creates[c].items|
    && forall i :: 0 <= i < |order.lines| ==> PricedAs(order.lines[i], s.creates[c].items[i], s.products)
  }

  lemma SameOrigin(s: State, c: nat, order: Order, later: Order, o: OrderId)
    requires FromCall(s, c, order, o) && SameIdentity(order, later)
    ensures FromCall(s, c, later, o)
  {
    hide PricedAs, Acceptable;
  }

  lemma NewOrderIs(s: State, e: Event, o: nat)
    requires |s.orders| <= o < |Step(s, e).orders| && QuantitiesOk(s.creates, s.orders)
    ensures e.CreateTx? && FromCall(s, e.c, Step(s, e).orders[o], o)
  {
    NewOrderItems(s, e, o);
    hide Step, Placed, Acceptable;
    CreateIsAllOrNothing(s, e.c);
    PlacedOrder(s, Step(s, e), s.creates[e.c]);
  }

  lemma PlacedOrder(s: State, t: State, call: CreateCall)
    ensures Placed(s, t, call.user, call.key, call.items) ==>
              && |t.orders| == |s.orders| + 1
              && t.orders[|s.orders|].user == call.user && t.orders[|s.orders|].key == call.key
              && |t.orders[|s.orders|].lines| == |call.items|
              && forall i :: 0 <= i < |call.items| ==>
                   PricedAs(t.orders[|s.orders|].lines[i], call.items[i], s.products)
  {
    hide PricedAs, Quantity;
  }

  // ---- Who cancels an order

  predicate ByOwner(call: CancelCall, orders: seq<Order>) {
    call.order < |orders| && orders[call.order].user == call.user
  }

  /** Calls that have passed the guard are the owner's, and every cancelled order has a finished one. */
  ghost predicate CancelsByOwner(s: State) {
    && (forall k :: 0 <= k < |s.cancels| && PastGuard(s.cancels[k].phase) ==> ByOwner(s.cancels[k], s.orders))
    && (forall o :: 0 <= o < |s.orders| && s.orders[o].status == CANCELLED ==> HasCancel(s.cancels, o))
  }

  predicate PastGuard(phase: CancelPhase) {
    phase.Guarded? || phase.Loaded? || phase.CancelDone?
  }

  ghost predicate HasCancel(cancels: seq<CancelCall>, o: OrderId) {
    exists k :: 0 <= k < |cancels| && cancels[k].order == o && cancels[k].phase.CancelDone?
  }

  /** Cancellations go on, and no order becomes CANCELLED otherwise. */
  predicate CancelsEvolve(s: State, t: State) {
    && |s.cancels| <= |t.cancels|
    && (forall k :: 0 <= k < |s.cancels| && s.cancels[k].phase.CancelDone? ==> t.cancels[k] == s.cancels[k])
    && (forall k :: 0 <= k < |t.cancels| && PastGuard(t.cancels[k].phase) ==>
          k < |s.cancels| && t.cancels[k].order == s.cancels[k].order && t.cancels[k].user == s.cancels[k].user
          && (PastGuard(s.cancels[k].phase) || ByOwner(s.cancels[k], s.orders)))
    && (forall o :: 0 <= o < |t.orders| && t.orders[o].status == CANCELLED ==>
          (o < |s.orders| && s.orders[o].status == CANCELLED)
          || (exists k :: 0 <= k < |t.cancels| && t.cancels[k].order == o && t.cancels[k].phase.CancelDone?))
  }

  lemma EvolvedCancels(s: State, t: State)
    requires CancelsByOwner(s) && CancelsEvolve(s, t) && Evolves(s.orders, t.orders)
    ensures CancelsByOwner(t)
  {
    forall k | 0 <= k < |t.cancels| && PastGuard(t.cancels[k].phase) ensures ByOwner(t.cancels[k], t.orders) {
      assert ByOwner(s.cancels[k], s.orders);
      assert SameIdentity(s.orders[t.cancels[k].order], t.orders[t.cancels[k].order]);
    }
    forall o | 0 <= o < |t.orders| && t.orders[o].status == CANCELLED ensures HasCancel(t.cancels, o) {
      if o < |s.orders| && s.orders[o].status == CANCELLED {
        var k :| 0 <= k < |s.cancels| && s.cancels[k].order == o && s.cancels[k].phase.CancelDone?;
        assert t.cancels[k] == s.cancels[k];
      }
    }
  }

  lemma StartedCancels(s: State, user: UserId, o: OrderId)
    ensures CancelsEvolve(s, DoStartCancel(s, user, o))
  {
    hide NoNewPayer;
  }

  lemma GuardedCancels(s: State, k: nat)
    ensures CancelsEvolve(s, DoCancelGuard(s, k))
  {
    hide NoNewPayer;
  }

  lemma LoadedCancels(s: State, k: nat)
    ensures CancelsEvolve(s, DoCancelLoad(s, k)) && CancelsEvolve(s, DoCancelFails(s, k))
  {
    hide NoNewPayer;
  }

  lemma CommitCancels(s: State, k: nat, keepPayment: bool)
    ensures CancelsEvolve(s, DoCancelCommit(s, k, keepPayment))
  {
    hide GivenBack, ItemsOf;
    if k < |s.cancels| && s.cancels[k].phase.Loaded? && s.cancels[k].order < |s.orders| {
      var t := DoCancelCommit(s, k, keepPayment);
      assert t.cancels[k].order == s.cancels[k].order && t.cancels[k].phase.CancelDone?;
    }
  }

  lemma CreateCancelsNone(s: State, c: nat)
    ensures CancelsEvolve(s, DoCreateTx(s, c))
  {
    hide Taken, FirstRejection, LockedRows, PricedLines, FindKey;
  }

  lemma WorkerCancelsNone(s: State, d: nat)
    ensures CancelsEvolve(s, DoWorkerCommit(s, d))
  {
  }

  lemma PaymentCancelsNone(s: State, d: nat)
    ensures CancelsEvolve(s, DoPaymentWrite(s, d))
  {
  }

  lemma BooksKeepCancels(s: State, t: State)
    requires t.orders == s.orders && t.cancels == s.cancels
    ensures CancelsEvolve(s, t)
  {
  }

  predicate CancellerEvent(e: Event) {
    e.StartCancel? || e.CancelGuard? || e.CancelLoad? || e.CancelFails? || e.CancelCommit?
  }

  lemma OthersCancelNothing(s: State, e: Event)
    requires !CancellerEvent(e)
    ensures Step(s, e).cancels == s.cancels
  {
    hide SameBooks, NoNewPayer, LockedRows, ProductIds, FirstRejection, FindKey, Taken, PricedLines, FindPayment,
         StoredAmount, FitsColumn, SentCents, DoStartCancel, DoCancelGuard, DoCancelLoad, DoCancelCommit, DoCancelFails;
  }

  lemma StepCancels(s: State, e: Event)
    ensures CancelsEvolve(s, Step(s, e))
  {
    hide CancelsEvolve, SameBooks, NoNewPayer, DoStartCreate, DoCheckKey, DoPrecheck, DoCreateTx, DoCreateTxFails,
         DoRecover, DoPublish, DoPublishFails, DoStartCancel, DoCancelGuard, DoCancelLoad, DoCancelCommit,
         DoCancelFails, DoDeliver, DoWorkerBegin, DoWorkerCommit, DoWorkerFails, DoStartAuthorize, DoAuthorizeFails,
         DoAuthorizeReturns, DoPaymentWrite, DoReroute, DoAck, DoAckFails, DoCrash, DoRedeliver, DoServerFind,
         DoServerInsert, DoServerFails, DoAdminWrite;
    match e
    case StartCancel(user, o) => StartedCancels(s, user, o);
    case CancelGuard(k) => GuardedCancels(s, k);
    case CancelLoad(k) => LoadedCancels(s, k);
    case CancelFails(k) => LoadedCancels(s, k);
    case CancelCommit(k, keep) => CommitCancels(s, k, keep);
    case CreateTx(c) => CreateCancelsNone(s, c);
    case WorkerCommit(d) => WorkerCancelsNone(s, d);
    case PaymentWrite(d) => PaymentCancelsNone(s, d);
    case _ =>
      OthersCancelNothing(s, e);
      OthersKeepOrders(s, e);
      BooksKeepCancels(s, Step(s, e));
  }

  lemma OthersKeepOrders(s: State, e: Event)
    requires !e.CreateTx? && !e.CancelCommit? && !e.WorkerCommit? && !e.PaymentWrite?
    ensures Step(s, e).orders == s.orders
  {
    hide Step;
    if e.AdminWrite? {
      AdminStep(s, e.product, e.row);
    } else {
      BooksUntouched(s, e);
    }
  }

  lemma AdminStep(s: State, p: ProductId, row: Row)
    ensures Step(s, AdminWrite(p, row)).orders == s.orders
  {
  }

  lemma {:induction false} RunCancels(s: State, es: seq<Event>)
    requires Inv(s) && CancelsByOwner(s)
    ensures CancelsByOwner(Run(s, es))
    decreases |es|
  {
    hide Inv, CancelsByOwner, CancelsEvolve, Evolves, Step;
    if es != [] {
      StepCancels(s, es[0]);
      StepEvolves(s, es[0]);
      StepKeepsInv(s, es[0]);
      EvolvedCancels(s, Step(s, es[0]));
      RunCancels(Step(s, es[0]), es[1..]);
    }
  }

  /** For every interleaving: an order that is CANCELLED was cancelled by a call of its own user. */
  lemma CancelledByOwner(s0: State, es: seq<Event>, o: OrderId)
    requires Initial(s0) && o < |Run(s0, es).orders| && Run(s0, es).orders[o].status == CANCELLED
    ensures var t := Run(s0, es);
            exists k :: 0 <= k < |t.cancels| && t.cancels[k] == CancelCall(t.orders[o].user, o, CancelDone)
  {
    hide Run, Inv;
    InitialInv(s0);
    RunCancels(s0, es);
    var t := Run(s0, es);
    var k :| 0 <= k < |t.cancels| && t.cancels[k].order == o && t.cancels[k].phase.CancelDone?;
    assert ByOwner(t.cancels[k], t.orders);
  }
}
