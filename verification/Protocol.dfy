/** The order, stock, queue and payment protocol as a transition system.

    One event is one database statement or transaction, one broker action or one
    gRPC hop; everything a service does between two awaits.  An event that is not
    enabled leaves the state unchanged, so a run is just a list of events and every
    interleaving of concurrent callers, workers and redeliveries is one such list. */
module Protocol {
  import opened Common
  import opened Stock
  import opened Binary64
  import opened Amounts

  // Tables are append-only and random UUIDs are positions in them: they never repeat.
  type OrderId = nat
  type MessageId = nat
  type PaymentId = nat
  type UserId = nat
  type Key = nat

  datatype Status = CANCELLED | CREATED | PAID | PENDING | PROCESSED

  datatype Line = Line(item: Item, price: nat)

  datatype Order = Order(user: UserId, key: Option<Key>, lines: seq<Line>, status: Status, payment: Option<PaymentId>)

  /** A message carries the client's key as correlation id, or a random one. */
  datatype Correlation = ClientKey(key: Key) | Random(message: MessageId)

  datatype Message = Message(id: MessageId, order: OrderId, correlation: Correlation, attempt: int)

  datatype ProcessedRow = ProcessedRow(message: MessageId, correlation: Correlation, order: OrderId)

  /** A row of the payments table; the amount is decimal text. */
  datatype Payment = Payment(order: OrderId, amount: string)

  datatype CreateError = UniqueViolation | OtherError

  datatype CreatePhase =
    | Started
    | KeyFree
    | Prechecked
    | Committed(order: OrderId)
    | TxFailed(error: CreateError)
    | Returned(order: OrderId)
    | Thrown

  datatype CreateCall = CreateCall(user: UserId, key: Option<Key>, items: seq<Item>, phase: CreatePhase)

  datatype CancelPhase = CancelStarted | Guarded | Loaded(snapshot: Order) | CancelDone | CancelThrown

  datatype CancelCall = CancelCall(user: UserId, order: OrderId, phase: CancelPhase)

  datatype HandlerPhase =
    | Received
    | InTransaction(snapshot: Order)
    | ToAuthorize
    | Authorizing(call: nat)
    | Writing(payment: PaymentId)
    | Handled
    | Errored
    | Rerouted
    | Finished
    | Crashed

  /** One delivery of a message to a worker: the broker's view and the handler's. */
  datatype Delivery = Delivery(message: Message, unacked: bool, phase: HandlerPhase)

  datatype AuthPhase = Sent | FoundNone | Replied(payment: PaymentId) | Refused

  datatype AuthCall = AuthCall(order: OrderId, amount: int, phase: AuthPhase)

  /** An unguarded write that landed on an order that was already CANCELLED. */
  datatype Overrun =
    | PaidAfterCancel(order: OrderId)
    | ProcessedAfterCancel(order: OrderId)
    | CancelledAgain(order: OrderId)

  datatype State = State(
    products: Table,
    orders: seq<Order>,
    processed: set<ProcessedRow>,
    payments: seq<Payment>,
    queue: multiset<Message>,
    dlq: multiset<Message>,
    paymentsDisabled: bool,
    // calls in flight
    creates: seq<CreateCall>,
    cancels: seq<CancelCall>,
    deliveries: seq<Delivery>,
    authCalls: seq<AuthCall>,
    // history
    published: seq<Message>,
    paid: seq<OrderId>,
    overruns: seq<Overrun>,
    touched: set<ProductId>)

  datatype Event =
    | StartCreate(user: UserId, key: Option<Key>, items: seq<Item>)
    | CheckKey(c: nat)
    | Precheck(c: nat)
    | CreateTx(c: nat)
    | CreateTxFails(c: nat)
    | Recover(c: nat)
    | Publish(c: nat)
    | PublishFails(c: nat)
    | StartCancel(user: UserId, order: OrderId)
    | CancelGuard(k: nat)
    | CancelLoad(k: nat)
    | CancelCommit(k: nat, keepPayment: bool)
    | CancelFails(k: nat)
    | Deliver(message: Message)
    | WorkerBegin(d: nat)
    | WorkerCommit(d: nat)
    | WorkerFails(d: nat)
    | StartAuthorize(d: nat)
    | AuthorizeFails(d: nat)
    | AuthorizeReturns(d: nat)
    | PaymentWrite(d: nat)
    | Reroute(d: nat)
    | Ack(d: nat)
    | AckFails(d: nat)
    | Crash(d: nat)
    | Redeliver(d: nat)
    | ServerFind(a: nat)
    | ServerInsert(a: nat)
    | ServerFails(a: nat)
    | AdminWrite(product: ProductId, row: Row)

  const MAX_RETRY_ATTEMPTS := 3

  function ItemsOf(lines: seq<Line>): (items: seq<Item>)
    ensures |items| == |lines|
  {
    seq(|lines|, i requires 0 <= i < |lines| => lines[i].item)
  }

  /** `getTotalSumInCents`: line totals, each rounded, added up in binary64. */
  function TotalSum(lines: seq<Line>): real {
    if lines == [] then 0.0
    else
      var last := lines[|lines| - 1];
      PrintParse(last.price);
      Fl(TotalSum(lines[..|lines| - 1]) + LineCents(CentsText(last.price), last.item.quantity) as real)
  }

  /** The amount of the authorization request: the total, which is a whole number. */
  function SentCents(lines: seq<Line>): int {
    TotalSum(lines).Floor
  }

  /** `findOne({ where: { idempotencyKey } })` */
  function FindKey(orders: seq<Order>, key: Key): (r: Option<OrderId>)
    ensures r.Some? ==> r.value < |orders| && orders[r.value].key == Some(key)
    ensures r.None? ==> forall o :: 0 <= o < |orders| ==> orders[o].key != Some(key)
  {
    if orders == [] then None
    else if orders[|orders| - 1].key == Some(key) then Some(|orders| - 1)
    else FindKey(orders[..|orders| - 1], key)
  }

  /** `findOne({ where: { orderId } })` on the payments table. */
  function FindPayment(payments: seq<Payment>, order: OrderId): (r: Option<PaymentId>)
    ensures r.Some? ==> r.value < |payments| && payments[r.value].order == order
    ensures r.None? ==> forall p :: 0 <= p < |payments| ==> payments[p].order != order
  {
    if payments == [] then None
    else if payments[|payments| - 1].order == order then Some(|payments| - 1)
    else FindPayment(payments[..|payments| - 1], order)
  }

  predicate UniqueViolated(orders: seq<Order>, key: Option<Key>) {
    key.Some? && FindKey(orders, key.value).Some?
  }

  function PricedLines(items: seq<Item>, table: Table): (lines: seq<Line>)
    requires forall i :: 0 <= i < |items| ==> items[i].product in table
    ensures |lines| == |items|
  {
    seq(|items|, i requires 0 <= i < |items| => Line(items[i], table[items[i].product].price))
  }

  function CorrelationOf(id: MessageId, key: Option<Key>): Correlation {
    match key
    case Some(k) => ClientKey(k)
    case None => Random(id)
  }

  function RowOf(m: Message): ProcessedRow {
    ProcessedRow(m.id, m.correlation, m.order)
  }

  /** Either unique index of processed_messages rejects the message's row. */
  predicate Duplicate(processed: set<ProcessedRow>, m: Message) {
    exists r :: r in processed && (r.message == m.id || r.correlation == m.correlation)
  }

  /** Another open transaction holds an uncommitted row with the same key, so an insert waits. */
  predicate InsertBlocked(deliveries: seq<Delivery>, d: nat)
    requires d < |deliveries|
  {
    exists e :: 0 <= e < |deliveries| && e != d && deliveries[e].phase.InTransaction?
                && (deliveries[e].message.id == deliveries[d].message.id
                    || deliveries[e].message.correlation == deliveries[d].message.correlation)
  }

  function SetCreate(s: State, c: nat, phase: CreatePhase): State
    requires c < |s.creates|
  {
    s.(creates := s.creates[c := s.creates[c].(phase := phase)])
  }

  function SetCancel(s: State, k: nat, phase: CancelPhase): State
    requires k < |s.cancels|
  {
    s.(cancels := s.cancels[k := s.cancels[k].(phase := phase)])
  }

  function SetHandler(s: State, d: nat, phase: HandlerPhase): State
    requires d < |s.deliveries|
  {
    s.(deliveries := s.deliveries[d := s.deliveries[d].(phase := phase)])
  }

  function SetAuth(s: State, a: nat, phase: AuthPhase): State
    requires a < |s.authCalls|
  {
    s.(authCalls := s.authCalls[a := s.authCalls[a].(phase := phase)])
  }

  predicate Creating(s: State, c: nat, phase: CreatePhase) {
    c < |s.creates| && s.creates[c].phase == phase
  }

  predicate Handling(s: State, d: nat) {
    d < |s.deliveries|
  }

  /** Products, orders, processed-message rows and the logs of order and product writes are as they were. */
  predicate SameBooks(s: State, t: State) {
    && t.products == s.products && t.orders == s.orders && t.processed == s.processed
    && t.overruns == s.overruns && t.paid == s.paid && t.touched == s.touched
  }

  /** The handler phases between the worker's commit and the end of the payment. */
  predicate Payer(phase: HandlerPhase) {
    phase.ToAuthorize? || phase.Authorizing? || phase.Writing?
  }

  predicate NoNewPayer(deliveries: seq<Delivery>, later: seq<Delivery>) {
    forall d :: 0 <= d < |later| && Payer(later[d].phase) ==>
      d < |deliveries| && Payer(deliveries[d].phase) && later[d].message == deliveries[d].message
  }

  // ---- Order creation (orders-command.service.ts, pg-error-mapper.service.ts)

  function DoStartCreate(s: State, user: UserId, key: Option<Key>, items: seq<Item>): (t: State)
    ensures SameBooks(s, t) && NoNewPayer(s.deliveries, t.deliveries)
  {
    s.(creates := s.creates + [CreateCall(user, key, items, if ValidQuantities(items) then Started else Thrown)])
  }

  function DoCheckKey(s: State, c: nat): (t: State)
    ensures SameBooks(s, t) && NoNewPayer(s.deliveries, t.deliveries)
  {
    if !Creating(s, c, Started) then s
    else if s.creates[c].key.None? then SetCreate(s, c, KeyFree)
    else
      match FindKey(s.orders, s.creates[c].key.value)
      case Some(o) => SetCreate(s, c, Returned(o))
      case None => SetCreate(s, c, KeyFree)
  }

  function DoPrecheck(s: State, c: nat): (t: State)
    ensures SameBooks(s, t) && NoNewPayer(s.deliveries, t.deliveries)
  {
    if !Creating(s, c, KeyFree) then s
    else
      var ids := ProductIds(s.creates[c].items);
      SetCreate(s, c, if LockedRows(s.products, ids).Keys == ids then Prechecked else Thrown)
  }

  function DoCreateTx(s: State, c: nat): State {
    if !Creating(s, c, Prechecked) then s
    else
      var call := s.creates[c];
      var rows := LockedRows(s.products, ProductIds(call.items));
      if FirstRejection(call.items, rows).Some? then SetCreate(s, c, TxFailed(OtherError))
      else if UniqueViolated(s.orders, call.key) then SetCreate(s, c, TxFailed(UniqueViolation))
      else
        assert forall i :: 0 <= i < |call.items| ==> Rejection(call.items[i], rows).None?;
        var order := Order(call.user, call.key, PricedLines(call.items, rows), PENDING, None);
        SetCreate(s, c, Committed(|s.orders|)).(
          products := Taken(s.products, call.items),
          orders := s.orders + [order])
  }

  function DoCreateTxFails(s: State, c: nat): (t: State)
    ensures SameBooks(s, t) && NoNewPayer(s.deliveries, t.deliveries)
  {
    if !Creating(s, c, Prechecked) then s else SetCreate(s, c, TxFailed(OtherError))
  }

  function DoRecover(s: State, c: nat): (t: State)
    ensures SameBooks(s, t) && NoNewPayer(s.deliveries, t.deliveries)
  {
    if !(c < |s.creates| && s.creates[c].phase.TxFailed?) then s
    else
      var call := s.creates[c];
      if call.phase.error == UniqueViolation && UniqueViolated(s.orders, call.key) then
        var o := FindKey(s.orders, call.key.value).value;
        SetCreate(s, c, if s.orders[o].user == call.user then Returned(o) else Thrown)
      else SetCreate(s, c, Thrown)
  }

  function DoPublish(s: State, c: nat): (t: State)
    ensures SameBooks(s, t) && NoNewPayer(s.deliveries, t.deliveries)
  {
    if !(c < |s.creates| && s.creates[c].phase.Committed?) then s
    else
      var id := |s.published|;
      var call := s.creates[c];
      var message := Message(id, call.phase.order, CorrelationOf(id, call.key), 1);
      SetCreate(s, c, Returned(call.phase.order)).(
        published := s.published + [message],
        queue := s.queue + multiset{message})
  }

  function DoPublishFails(s: State, c: nat): (t: State)
    ensures SameBooks(s, t) && NoNewPayer(s.deliveries, t.deliveries)
  {
    if !(c < |s.creates| && s.creates[c].phase.Committed?) then s else SetCreate(s, c, Thrown)
  }

  // ---- Cancellation (orders-command.service.ts)

  function DoStartCancel(s: State, user: UserId, order: OrderId): (t: State)
    ensures SameBooks(s, t) && NoNewPayer(s.deliveries, t.deliveries) && t.creates == s.creates
  {
    s.(cancels := s.cancels + [CancelCall(user, order, CancelStarted)])
  }

  function DoCancelGuard(s: State, k: nat): (t: State)
    ensures SameBooks(s, t) && NoNewPayer(s.deliveries, t.deliveries) && t.creates == s.creates
  {
    if !(k < |s.cancels| && s.cancels[k].phase.CancelStarted?) then s
    else
      var call := s.cancels[k];
      if call.order >= |s.orders| || s.orders[call.order].user != call.user then SetCancel(s, k, CancelThrown)
      else if s.orders[call.order].status == CANCELLED then SetCancel(s, k, CancelThrown)
      else if s.orders[call.order].status == CREATED then SetCancel(s, k, CancelThrown)
      else SetCancel(s, k, Guarded)
  }

  function DoCancelLoad(s: State, k: nat): (t: State)
    ensures SameBooks(s, t) && NoNewPayer(s.deliveries, t.deliveries) && t.creates == s.creates
  {
    if !(k < |s.cancels| && s.cancels[k].phase.Guarded?) then s
    else if s.cancels[k].order >= |s.orders| then SetCancel(s, k, CancelThrown)
    else SetCancel(s, k, Loaded(s.orders[s.cancels[k].order]))
  }

  /** Stock is given back under row locks; the order row is saved from the earlier, unlocked read.
      A payment id written in between survives the save or is overwritten with the stale one. */
  function DoCancelCommit(s: State, k: nat, keepPayment: bool): (t: State)
    ensures t.creates == s.creates
  {
    if !(k < |s.cancels| && s.cancels[k].phase.Loaded? && s.cancels[k].order < |s.orders|) then s
    else
      var o, snapshot := s.cancels[k].order, s.cancels[k].phase.snapshot;
      var payment := if keepPayment then s.orders[o].payment else snapshot.payment;
      SetCancel(s, k, CancelDone).(
        products := GivenBack(s.products, ItemsOf(snapshot.lines)),
        orders := s.orders[o := snapshot.(status := CANCELLED, payment := payment)],
        overruns := if s.orders[o].status == CANCELLED then s.overruns + [CancelledAgain(o)] else s.overruns)
  }

  function DoCancelFails(s: State, k: nat): (t: State)
    ensures SameBooks(s, t) && NoNewPayer(s.deliveries, t.deliveries) && t.creates == s.creates
  {
    if !(k < |s.cancels| && (s.cancels[k].phase.Guarded? || s.cancels[k].phase.Loaded?)) then s
    else SetCancel(s, k, CancelThrown)
  }

  // ---- Worker (orders-worker.service.ts, order-processing.service.ts)

  function DoDeliver(s: State, m: Message): (t: State)
    ensures SameBooks(s, t) && NoNewPayer(s.deliveries, t.deliveries) && t.creates == s.creates
  {
    if m !in s.queue then s
    else s.(queue := s.queue - multiset{m}, deliveries := s.deliveries + [Delivery(m, true, Received)])
  }

  /** Insert the processed-message row, then read the order without a lock. */
  function DoWorkerBegin(s: State, d: nat): (t: State)
    ensures SameBooks(s, t) && NoNewPayer(s.deliveries, t.deliveries) && t.creates == s.creates
  {
    if !(Handling(s, d) && s.deliveries[d].phase.Received?) then s
    else
      var m := s.deliveries[d].message;
      if Duplicate(s.processed, m) then SetHandler(s, d, Handled)
      else if InsertBlocked(s.deliveries, d) then s
      else if m.order >= |s.orders| then SetHandler(s, d, Errored)
      else SetHandler(s, d, InTransaction(s.orders[m.order]))
  }

  function DoWorkerCommit(s: State, d: nat): (t: State)
    ensures t.creates == s.creates
  {
    if !(Handling(s, d) && s.deliveries[d].phase.InTransaction? && s.deliveries[d].message.order < |s.orders|) then s
    else
      var m, snapshot := s.deliveries[d].message, s.deliveries[d].phase.snapshot;
      var recorded := s.(processed := s.processed + {RowOf(m)});
      if snapshot.status != PENDING then SetHandler(recorded, d, Handled)
      else
        SetHandler(recorded, d, if s.paymentsDisabled || snapshot.payment.Some? then Handled else ToAuthorize).(
          orders := s.orders[m.order := snapshot.(status := PROCESSED)],
          overruns := if s.orders[m.order].status == CANCELLED
                      then s.overruns + [ProcessedAfterCancel(m.order)] else s.overruns)
  }

  function DoWorkerFails(s: State, d: nat): (t: State)
    ensures SameBooks(s, t) && NoNewPayer(s.deliveries, t.deliveries) && t.creates == s.creates
  {
    if !(Handling(s, d) && (s.deliveries[d].phase.Received? || s.deliveries[d].phase.InTransaction?)) then s
    else SetHandler(s, d, Errored)
  }

  function DoStartAuthorize(s: State, d: nat): (t: State)
    ensures SameBooks(s, t) && NoNewPayer(s.deliveries, t.deliveries) && t.creates == s.creates
  {
    if !(Handling(s, d) && s.deliveries[d].phase.ToAuthorize?) then s
    else
      var o := s.deliveries[d].message.order;
      if o >= |s.orders| then SetHandler(s, d, Errored)
      else
        SetHandler(s, d, Authorizing(|s.authCalls|)).(
          authCalls := s.authCalls + [AuthCall(o, SentCents(s.orders[o].lines), Sent)])
  }

  /** Time-out, open breaker or gRPC error, at any moment; the request may still be on its way. */
  function DoAuthorizeFails(s: State, d: nat): (t: State)
    ensures SameBooks(s, t) && NoNewPayer(s.deliveries, t.deliveries) && t.creates == s.creates
  {
    if !(Handling(s, d) && (s.deliveries[d].phase.ToAuthorize? || s.deliveries[d].phase.Authorizing?
                            || s.deliveries[d].phase.Writing?)) then s
    else SetHandler(s, d, Errored)
  }

  function DoAuthorizeReturns(s: State, d: nat): (t: State)
    ensures SameBooks(s, t) && NoNewPayer(s.deliveries, t.deliveries) && t.creates == s.creates
  {
    if !(Handling(s, d) && s.deliveries[d].phase.Authorizing? && s.deliveries[d].phase.call < |s.authCalls|
         && s.authCalls[s.deliveries[d].phase.call].phase.Replied?) then s
    else SetHandler(s, d, Writing(s.authCalls[s.deliveries[d].phase.call].phase.payment))
  }

  /** `update({ id }, { paymentId, status: PAID })`: no guard on the current status. */
  function DoPaymentWrite(s: State, d: nat): (t: State)
    ensures t.creates == s.creates
  {
    if !(Handling(s, d) && s.deliveries[d].phase.Writing? && s.deliveries[d].message.order < |s.orders|) then s
    else
      var o := s.deliveries[d].message.order;
      SetHandler(s, d, Handled).(
        orders := s.orders[o := s.orders[o].(status := PAID, payment := Some(s.deliveries[d].phase.payment))],
        paid := s.paid + [o],
        overruns := if s.orders[o].status == CANCELLED then s.overruns + [PaidAfterCancel(o)] else s.overruns)
  }

  function DoReroute(s: State, d: nat): (t: State)
    ensures SameBooks(s, t) && NoNewPayer(s.deliveries, t.deliveries) && t.creates == s.creates
  {
    if !(Handling(s, d) && s.deliveries[d].phase.Errored?) then s
    else
      var m := s.deliveries[d].message;
      if m.attempt < MAX_RETRY_ATTEMPTS then
        SetHandler(s, d, Rerouted).(queue := s.queue + multiset{m.(attempt := m.attempt + 1)})
      else
        SetHandler(s, d, Rerouted).(dlq := s.dlq + multiset{m})
  }

  function DoAck(s: State, d: nat): (t: State)
    ensures SameBooks(s, t) && NoNewPayer(s.deliveries, t.deliveries) && t.creates == s.creates
  {
    if !(Handling(s, d) && (s.deliveries[d].phase.Handled? || s.deliveries[d].phase.Rerouted?)) then s
    else s.(deliveries := s.deliveries[d := s.deliveries[d].(unacked := false, phase := Finished)])
  }

  /** `channel.ack` throws inside the try block, so the handler takes the error path. */
  function DoAckFails(s: State, d: nat): (t: State)
    ensures SameBooks(s, t) && NoNewPayer(s.deliveries, t.deliveries) && t.creates == s.creates
  {
    if !(Handling(s, d) && s.deliveries[d].phase.Handled?) then s else SetHandler(s, d, Errored)
  }

  function DoCrash(s: State, d: nat): (t: State)
    ensures SameBooks(s, t) && NoNewPayer(s.deliveries, t.deliveries) && t.creates == s.creates
  {
    if !(Handling(s, d) && !s.deliveries[d].phase.Finished?) then s else SetHandler(s, d, Crashed)
  }

  /** The broker takes an unacked delivery back; its handler, if alive, does not know. */
  function DoRedeliver(s: State, d: nat): (t: State)
    ensures SameBooks(s, t) && NoNewPayer(s.deliveries, t.deliveries) && t.creates == s.creates
  {
    if !(Handling(s, d) && s.deliveries[d].unacked) then s
    else
      s.(deliveries := s.deliveries[d := s.deliveries[d].(unacked := false)],
         queue := s.queue + multiset{s.deliveries[d].message})
  }

  // ---- Payments service (payments.service.ts)

  function DoServerFind(s: State, a: nat): (t: State)
    ensures SameBooks(s, t) && NoNewPayer(s.deliveries, t.deliveries) && t.creates == s.creates
  {
    if !(a < |s.authCalls| && s.authCalls[a].phase.Sent?) then s
    else if s.authCalls[a].amount <= 0 then SetAuth(s, a, Refused)
    else
      match FindPayment(s.payments, s.authCalls[a].order)
      case Some(p) => SetAuth(s, a, Replied(p))
      case None => SetAuth(s, a, FoundNone)
  }

  /** The unique index on order_id and the numeric(12,2) column can both refuse the row. */
  function DoServerInsert(s: State, a: nat): (t: State)
    ensures SameBooks(s, t) && NoNewPayer(s.deliveries, t.deliveries) && t.creates == s.creates
  {
    if !(a < |s.authCalls| && s.authCalls[a].phase.FoundNone?) then s
    else
      var call := s.authCalls[a];
      if FindPayment(s.payments, call.order).Some? || !FitsColumn(StoredAmount(call.amount)) then SetAuth(s, a, Refused)
      else
        SetAuth(s, a, Replied(|s.payments|)).(payments := s.payments + [Payment(call.order, StoredAmount(call.amount))])
  }

  function DoServerFails(s: State, a: nat): (t: State)
    ensures SameBooks(s, t) && NoNewPayer(s.deliveries, t.deliveries) && t.creates == s.creates
  {
    if !(a < |s.authCalls| && !s.authCalls[a].phase.Replied?) then s else SetAuth(s, a, Refused)
  }

  /** Any administrator's write to a product row: stock edit, deactivation, soft delete. */
  function DoAdminWrite(s: State, p: ProductId, row: Row): (t: State)
    ensures t.creates == s.creates
  {
    s.(products := s.products[p := row], touched := s.touched + {p})
  }

  function Step(s: State, e: Event): State {
    match e
    case StartCreate(user, key, items) => DoStartCreate(s, user, key, items)
    case CheckKey(c) => DoCheckKey(s, c)
    case Precheck(c) => DoPrecheck(s, c)
    case CreateTx(c) => DoCreateTx(s, c)
    case CreateTxFails(c) => DoCreateTxFails(s, c)
    case Recover(c) => DoRecover(s, c)
    case Publish(c) => DoPublish(s, c)
    case PublishFails(c) => DoPublishFails(s, c)
    case StartCancel(user, order) => DoStartCancel(s, user, order)
    case CancelGuard(k) => DoCancelGuard(s, k)
    case CancelLoad(k) => DoCancelLoad(s, k)
    case CancelCommit(k, keep) => DoCancelCommit(s, k, keep)
    case CancelFails(k) => DoCancelFails(s, k)
    case Deliver(m) => DoDeliver(s, m)
    case WorkerBegin(d) => DoWorkerBegin(s, d)
    case WorkerCommit(d) => DoWorkerCommit(s, d)
    case WorkerFails(d) => DoWorkerFails(s, d)
    case StartAuthorize(d) => DoStartAuthorize(s, d)
    case AuthorizeFails(d) => DoAuthorizeFails(s, d)
    case AuthorizeReturns(d) => DoAuthorizeReturns(s, d)
    case PaymentWrite(d) => DoPaymentWrite(s, d)
    case Reroute(d) => DoReroute(s, d)
    case Ack(d) => DoAck(s, d)
    case AckFails(d) => DoAckFails(s, d)
    case Crash(d) => DoCrash(s, d)
    case Redeliver(d) => DoRedeliver(s, d)
    case ServerFind(a) => DoServerFind(s, a)
    case ServerInsert(a) => DoServerInsert(s, a)
    case ServerFails(a) => DoServerFails(s, a)
    case AdminWrite(p, row) => DoAdminWrite(s, p, row)
  }

  /** Every run: events are taken from the left. */
  function Run(s: State, es: seq<Event>): State
    decreases |es|
  {
    if es == [] then s else Run(Step(s, es[0]), es[1..])
  }

  lemma {:induction false} RunConcat(s: State, es: seq<Event>, fs: seq<Event>)
    ensures Run(s, es + fs) == Run(Run(s, es), fs)
    decreases |es|
  {
    if es == [] {
      assert es + fs == fs;
    } else {
      assert (es + fs)[1..] == es[1..] + fs;
      RunConcat(Step(s, es[0]), es[1..], fs);
    }
  }

  predicate Initial(s: State) {
    && s.orders == [] && s.processed == {} && s.payments == []
    && s.queue == multiset{} && s.dlq == multiset{}
    && s.creates == [] && s.cancels == [] && s.deliveries == [] && s.authCalls == []
    && s.published == [] && s.paid == [] && s.overruns == [] && s.touched == {}
  }
}
