/** What every event of the protocol keeps. */
module Invariants {
  import opened Common
  import opened Stock
  import opened Protocol
  import opened Amounts

  predicate KeysUnique(orders: seq<Order>) {
    forall i, j :: 0 <= i < j < |orders| && orders[i].key.Some? ==> orders[i].key != orders[j].key
  }

  predicate IsPublished(published: seq<Message>, o: OrderId) {
    exists i :: 0 <= i < |published| && published[i].order == o
  }

  predicate CreatesOk(creates: seq<CreateCall>, orders: seq<Order>, published: seq<Message>) {
    && (forall c :: 0 <= c < |creates| && creates[c].phase.Committed? ==>
          creates[c].phase.order < |orders| && orders[creates[c].phase.order].key == creates[c].key)
    && (forall c :: 0 <= c < |creates| && creates[c].phase.Committed? ==>
          !IsPublished(published, creates[c].phase.order))
    && (forall c :: 0 <= c < |creates| && creates[c].phase.Returned? ==>
          creates[c].phase.order < |orders| && orders[creates[c].phase.order].key == creates[c].key)
    && (forall b, c :: 0 <= b < c < |creates| && creates[b].phase.Committed? && creates[c].phase.Committed? ==>
          creates[b].phase.order != creates[c].phase.order)
  }

  predicate PublishedOk(published: seq<Message>, orders: seq<Order>) {
    && (forall i :: 0 <= i < |published| ==>
          && published[i].id == i && published[i].attempt == 1 && published[i].order < |orders|
          && published[i].correlation == CorrelationOf(i, orders[published[i].order].key))
    && (forall i, j :: 0 <= i < j < |published| ==> published[i].order != published[j].order)
  }

  /** A message in the system is a published one, up to its attempt counter. */
  predicate MessageOk(m: Message, published: seq<Message>) {
    m.id < |published| && m.(attempt := 1) == published[m.id] && 1 <= m.attempt <= MAX_RETRY_ATTEMPTS
  }

  predicate QueuesOk(queue: multiset<Message>, dlq: multiset<Message>, published: seq<Message>) {
    && (forall m :: m in queue ==> MessageOk(m, published))
    && (forall m :: m in dlq ==> MessageOk(m, published))
  }

  predicate OrderProcessed(processed: set<ProcessedRow>, o: OrderId) {
    exists r :: r in processed && r.order == o
  }

  predicate ProcessedOk(processed: set<ProcessedRow>, published: seq<Message>, orders: seq<Order>) {
    && (forall r :: r in processed ==> r.message < |published| && r == RowOf(published[r.message]))
    && (forall r :: r in processed ==> r.order < |orders| && orders[r.order].status != PENDING)
  }

  predicate SameIdentity(a: Order, b: Order) {
    a.user == b.user && a.key == b.key && a.lines == b.lines
  }

  predicate PaymentIsOf(payments: seq<Payment>, p: PaymentId, o: OrderId) {
    p < |payments| && payments[p].order == o
  }

  predicate SnapshotOk(snapshot: Order, current: Order) {
    && SameIdentity(snapshot, current)
    && (current.status == PENDING ==> snapshot.status == PENDING)
    && (snapshot.status == PENDING ==>
          current.status in {PENDING, CANCELLED} && snapshot.payment.None? && current.payment.None?)
  }

  predicate DeliveriesOk(deliveries: seq<Delivery>, published: seq<Message>, processed: set<ProcessedRow>,
                         orders: seq<Order>)
  {
    && (forall d :: 0 <= d < |deliveries| ==> MessageOk(deliveries[d].message, published))
    && (forall d :: 0 <= d < |deliveries| && deliveries[d].phase.InTransaction? ==>
          && RowOf(deliveries[d].message) !in processed
          && deliveries[d].message.order < |orders|
          && SnapshotOk(deliveries[d].phase.snapshot, orders[deliveries[d].message.order]))
    && (forall d, e ::
          (0 <= d < e < |deliveries| && deliveries[d].phase.InTransaction? && deliveries[e].phase.InTransaction?) ==>
          deliveries[d].message.id != deliveries[e].message.id)
    && (forall d :: 0 <= d < |deliveries| && deliveries[d].phase.Handled? ==>
          deliveries[d].message.order < |orders| && orders[deliveries[d].message.order].status != PENDING)
    && (forall d :: 0 <= d < |deliveries| && deliveries[d].phase.Finished? ==> !deliveries[d].unacked)
  }

  predicate PayersOk(deliveries: seq<Delivery>, processed: set<ProcessedRow>, authCalls: seq<AuthCall>,
                     payments: seq<Payment>)
  {
    && (forall d :: 0 <= d < |deliveries| && Payer(deliveries[d].phase) ==> RowOf(deliveries[d].message) in processed)
    && (forall d, e :: 0 <= d < e < |deliveries| && Payer(deliveries[d].phase) && Payer(deliveries[e].phase) ==>
          deliveries[d].message.order != deliveries[e].message.order)
    && (forall d, a :: 0 <= d < |deliveries| && deliveries[d].phase.ToAuthorize? && 0 <= a < |authCalls| ==>
          authCalls[a].order != deliveries[d].message.order)
    && (forall d :: 0 <= d < |deliveries| && deliveries[d].phase.Authorizing? ==>
          && deliveries[d].phase.call < |authCalls|
          && authCalls[deliveries[d].phase.call].order == deliveries[d].message.order)
    && (forall d :: 0 <= d < |deliveries| && deliveries[d].phase.Writing? ==>
          PaymentIsOf(payments, deliveries[d].phase.payment, deliveries[d].message.order))
  }

  predicate AuthCallsOk(authCalls: seq<AuthCall>, processed: set<ProcessedRow>, payments: seq<Payment>,
                        orders: seq<Order>)
  {
    && (forall a :: 0 <= a < |authCalls| ==>
          && OrderProcessed(processed, authCalls[a].order)
          && authCalls[a].order < |orders|
          && authCalls[a].amount == SentCents(orders[authCalls[a].order].lines))
    && (forall a, b :: 0 <= a < b < |authCalls| ==> authCalls[a].order != authCalls[b].order)
    && (forall a :: 0 <= a < |authCalls| && authCalls[a].phase.FoundNone? ==> authCalls[a].amount > 0)
    && (forall a :: 0 <= a < |authCalls| && authCalls[a].phase.Replied? ==>
          PaymentIsOf(payments, authCalls[a].phase.payment, authCalls[a].order))
  }

  predicate PaymentsOk(payments: seq<Payment>, processed: set<ProcessedRow>, orders: seq<Order>) {
    && (forall p :: 0 <= p < |payments| ==>
          && OrderProcessed(processed, payments[p].order)
          && payments[p].order < |orders|
          && payments[p].amount == StoredAmount(SentCents(orders[payments[p].order].lines))
          && 0 < SentCents(orders[payments[p].order].lines) && FitsColumn(payments[p].amount))
    && (forall p, q :: 0 <= p < q < |payments| ==> payments[p].order != payments[q].order)
  }

  predicate OrdersOk(orders: seq<Order>, processed: set<ProcessedRow>, payments: seq<Payment>) {
    && (forall o :: 0 <= o < |orders| ==> orders[o].status != CREATED)
    && (forall o :: 0 <= o < |orders| && orders[o].status in {PROCESSED, PAID} ==> OrderProcessed(processed, o))
    && (forall o :: 0 <= o < |orders| && orders[o].status == PAID ==> orders[o].payment.Some?)
    && (forall o :: 0 <= o < |orders| && orders[o].payment.Some? ==>
          orders[o].status in {PAID, CANCELLED} && PaymentIsOf(payments, orders[o].payment.value, o))
  }

  predicate CancelsOk(cancels: seq<CancelCall>, orders: seq<Order>, payments: seq<Payment>) {
    forall k :: 0 <= k < |cancels| && cancels[k].phase.Loaded? ==>
      && cancels[k].order < |orders|
      && SameIdentity(cancels[k].phase.snapshot, orders[cancels[k].order])
      && (cancels[k].phase.snapshot.payment.Some? ==>
            PaymentIsOf(payments, cancels[k].phase.snapshot.payment.value, cancels[k].order))
  }

  predicate PaidOk(paid: seq<OrderId>, processed: set<ProcessedRow>, deliveries: seq<Delivery>) {
    && NoRepeats(paid)
    && (forall i :: 0 <= i < |paid| ==> OrderProcessed(processed, paid[i]))
    && (forall i, d :: 0 <= i < |paid| && 0 <= d < |deliveries| && Payer(deliveries[d].phase) ==>
          deliveries[d].message.order != paid[i])
  }

  /** A delivery that still answers for its message: acking it is not yet permitted. */
  predicate Answers(d: Delivery, id: MessageId) {
    d.message.id == id && d.unacked && !d.phase.Rerouted?
  }

  /** A copy of message `id` that no pending ack can remove. */
  predicate HasCopy(queue: multiset<Message>, dlq: multiset<Message>, deliveries: seq<Delivery>, id: MessageId) {
    || (exists m :: m in queue && m.id == id)
    || (exists m :: m in dlq && m.id == id)
    || (exists d :: 0 <= d < |deliveries| && Answers(deliveries[d], id))
  }

  predicate NothingLost(s: State) {
    forall i :: 0 <= i < |s.published| && s.published[i].order < |s.orders|
                && s.orders[s.published[i].order].status == PENDING ==>
      HasCopy(s.queue, s.dlq, s.deliveries, i)
  }

  predicate Inv(s: State) {
    && KeysUnique(s.orders)
    && CreatesOk(s.creates, s.orders, s.published)
    && PublishedOk(s.published, s.orders)
    && QueuesOk(s.queue, s.dlq, s.published)
    && ProcessedOk(s.processed, s.published, s.orders)
    && DeliveriesOk(s.deliveries, s.published, s.processed, s.orders)
    && PayersOk(s.deliveries, s.processed, s.authCalls, s.payments)
    && AuthCallsOk(s.authCalls, s.processed, s.payments, s.orders)
    && PaymentsOk(s.payments, s.processed, s.orders)
    && OrdersOk(s.orders, s.processed, s.payments)
    && CancelsOk(s.cancels, s.orders, s.payments)
    && PaidOk(s.paid, s.processed, s.deliveries)
    && NothingLost(s)
  }

  lemma InitialTables(s: State)
    requires Initial(s)
    ensures KeysUnique(s.orders) && PublishedOk(s.published, s.orders) && QueuesOk(s.queue, s.dlq, s.published)
    ensures ProcessedOk(s.processed, s.published, s.orders) && PaymentsOk(s.payments, s.processed, s.orders)
    ensures OrdersOk(s.orders, s.processed, s.payments)
  {
  }

  lemma InitialCalls(s: State)
    requires Initial(s)
    ensures CreatesOk(s.creates, s.orders, s.published) && CancelsOk(s.cancels, s.orders, s.payments)
    ensures DeliveriesOk(s.deliveries, s.published, s.processed, s.orders)
    ensures PayersOk(s.deliveries, s.processed, s.authCalls, s.payments)
    ensures AuthCallsOk(s.authCalls, s.processed, s.payments, s.orders)
    ensures PaidOk(s.paid, s.processed, s.deliveries) && NothingLost(s)
  {
  }

  lemma InitialInv(s: State)
    requires Initial(s)
    ensures Inv(s)
  {
    hide KeysUnique, CreatesOk, PublishedOk, QueuesOk, ProcessedOk, DeliveriesOk, PayersOk, AuthCallsOk, PaymentsOk,
         OrdersOk, CancelsOk, PaidOk, NothingLost;
    InitialTables(s);
    InitialCalls(s);
  }

  /** Under the invariant the two unique indexes on processed messages agree. */
  lemma DuplicateIffRow(s: State, m: Message)
    requires PublishedOk(s.published, s.orders) && KeysUnique(s.orders)
    requires ProcessedOk(s.processed, s.published, s.orders) && MessageOk(m, s.published)
    ensures Duplicate(s.processed, m) <==> RowOf(m) in s.processed
  {
    if Duplicate(s.processed, m) {
      var r :| r in s.processed && (r.message == m.id || r.correlation == m.correlation);
      SameCorrelation(s, r.message, m.id);
    }
  }

  lemma SameCorrelation(s: State, i: nat, j: nat)
    requires PublishedOk(s.published, s.orders) && KeysUnique(s.orders)
    requires i < |s.published| && j < |s.published| && s.published[i].correlation == s.published[j].correlation
    ensures i == j
  {
    var o, q := s.published[i].order, s.published[j].order;
    assert s.orders[o].key == s.orders[q].key;
  }

  /** One processed order has one processed message: the one that was published for it. */
  lemma ProcessedMessageIs(s: State, m: Message)
    requires PublishedOk(s.published, s.orders)
    requires ProcessedOk(s.processed, s.published, s.orders) && MessageOk(m, s.published)
    ensures OrderProcessed(s.processed, m.order) <==> RowOf(m) in s.processed
  {
    if OrderProcessed(s.processed, m.order) {
      var r :| r in s.processed && r.order == m.order;
      assert r.message == m.id;
    }
  }

  // ---- What growing tables keep

  /** Orders keep user, key and lines, and none becomes PENDING again. */
  predicate Evolves(orders: seq<Order>, later: seq<Order>) {
    && |orders| <= |later|
    && (forall o :: 0 <= o < |orders| ==> SameIdentity(orders[o], later[o]))
    && (forall o :: 0 <= o < |orders| && later[o].status == PENDING ==> orders[o].status == PENDING)
  }

  lemma EvolvesKeeps(s: State, orders: seq<Order>)
    requires Inv(s) && Evolves(s.orders, orders)
    ensures CreatesOk(s.creates, orders, s.published)
    ensures PublishedOk(s.published, orders)
    ensures ProcessedOk(s.processed, s.published, orders)
    ensures AuthCallsOk(s.authCalls, s.processed, s.payments, orders)
    ensures PaymentsOk(s.payments, s.processed, orders)
    ensures CancelsOk(s.cancels, orders, s.payments)
  {
    hide KeysUnique, QueuesOk, DeliveriesOk, PayersOk, OrdersOk, PaidOk, NothingLost, SentCents, StoredAmount,
         FitsColumn;
  }

  lemma EvolvesKeepsKeys(orders: seq<Order>, later: seq<Order>)
    requires KeysUnique(orders) && Evolves(orders, later) && |later| == |orders|
    ensures KeysUnique(later)
  {
    forall i, j | 0 <= i < j < |later| && later[i].key.Some? ensures later[i].key != later[j].key {
      assert SameIdentity(orders[i], later[i]) && SameIdentity(orders[j], later[j]);
    }
  }

  lemma EvolvesLosesNothing(s: State, orders: seq<Order>)
    requires NothingLost(s) && Evolves(s.orders, orders) && PublishedOk(s.published, s.orders)
    ensures NothingLost(s.(orders := orders))
  {
  }

  // ---- Create calls

  lemma CreateCallKeeps(s: State, c: nat, phase: CreatePhase)
    requires Inv(s) && c < |s.creates| && !phase.Committed?
    requires phase.Returned? ==> phase.order < |s.orders| && s.orders[phase.order].key == s.creates[c].key
    ensures Inv(SetCreate(s, c, phase))
  {
    hide KeysUnique, PublishedOk, QueuesOk, ProcessedOk, DeliveriesOk, PayersOk, AuthCallsOk, PaymentsOk, OrdersOk,
         CancelsOk, PaidOk, HasCopy;
  }

  lemma StartCreateKeeps(s: State, user: UserId, key: Option<Key>, items: seq<Item>)
    requires Inv(s)
    ensures Inv(DoStartCreate(s, user, key, items))
  {
    hide KeysUnique, PublishedOk, QueuesOk, ProcessedOk, DeliveriesOk, PayersOk, AuthCallsOk, PaymentsOk, OrdersOk,
         CancelsOk, PaidOk, HasCopy;
  }

  lemma KeyLookupsKeep(s: State, c: nat)
    requires Inv(s)
    ensures Inv(DoCheckKey(s, c)) && Inv(DoRecover(s, c))
  {
    hide Inv, SentCents, StoredAmount, FitsColumn;
    if DoCheckKey(s, c) != s {
      CreateCallKeeps(s, c, DoCheckKey(s, c).creates[c].phase);
    }
    if DoRecover(s, c) != s {
      CreateCallKeeps(s, c, DoRecover(s, c).creates[c].phase);
    }
  }

  lemma QuietCreateEventsKeep(s: State, e: Event)
    requires Inv(s)
    requires e.Precheck? || e.CreateTxFails? || e.PublishFails?
    ensures Inv(Step(s, e))
  {
    hide Inv, SentCents, StoredAmount, FitsColumn;
    if Step(s, e) != s {
      CreateCallKeeps(s, e.c, Step(s, e).creates[e.c].phase);
    }
  }

  lemma CreateTxKeeps(s: State, c: nat)
    requires Inv(s)
    ensures Inv(DoCreateTx(s, c))
  {
    hide CreatesOk, PublishedOk, QueuesOk, ProcessedOk, PayersOk, AuthCallsOk, PaymentsOk, CancelsOk, PaidOk,
         OrdersOk, DeliveriesOk, KeysUnique, NothingLost, Taken;
    var t := DoCreateTx(s, c);
    if |t.orders| == |s.orders| {
      if t != s {
        CreateCallKeeps(s, c, t.creates[c].phase);
      }
    } else {
      EvolvesKeeps(s, t.orders);
      CreateTxCreates(s, c);
      CreateTxOrders(s, c);
    }
  }

  lemma CreateTxCreates(s: State, c: nat)
    requires Inv(s) && |DoCreateTx(s, c).orders| > |s.orders|
    ensures CreatesOk(DoCreateTx(s, c).creates, DoCreateTx(s, c).orders, s.published)
  {
    hide KeysUnique, QueuesOk, ProcessedOk, DeliveriesOk, PayersOk, AuthCallsOk, PaymentsOk, OrdersOk, CancelsOk,
         PaidOk, NothingLost, Taken;
  }

  lemma CreateTxOrders(s: State, c: nat)
    requires Inv(s) && |DoCreateTx(s, c).orders| > |s.orders|
    ensures var t := DoCreateTx(s, c);
            && KeysUnique(t.orders) && OrdersOk(t.orders, t.processed, t.payments) && NothingLost(t)
            && DeliveriesOk(t.deliveries, t.published, t.processed, t.orders)
  {
    hide KeysUnique, CreatesOk, PublishedOk, QueuesOk, ProcessedOk, DeliveriesOk, PayersOk, AuthCallsOk, PaymentsOk,
         OrdersOk, CancelsOk, PaidOk, NothingLost, HasCopy, Taken, FirstRejection, LockedRows;
    var t := DoCreateTx(s, c);
    OrderAppended(s, t.orders[|s.orders|], t);
  }

  /** A new PENDING order with a free key, not yet published. */
  lemma OrderAppended(s: State, order: Order, t: State)
    requires Inv(s) && order.status == PENDING && order.payment.None? && !UniqueViolated(s.orders, order.key)
    requires t.orders == s.orders + [order] && t.published == s.published
    requires t.processed == s.processed && t.payments == s.payments
    requires t.queue == s.queue && t.dlq == s.dlq && t.deliveries == s.deliveries
    ensures KeysUnique(t.orders) && OrdersOk(t.orders, t.processed, t.payments) && NothingLost(t)
    ensures DeliveriesOk(t.deliveries, t.published, t.processed, t.orders)
  {
    hide CreatesOk, QueuesOk, ProcessedOk, PayersOk, AuthCallsOk, PaymentsOk, CancelsOk, PaidOk, HasCopy;
  }

  lemma PublishKeeps(s: State, c: nat)
    requires Inv(s)
    ensures Inv(DoPublish(s, c))
  {
    if DoPublish(s, c) != s {
      PublishCreates(s, c);
      PublishMessages(s, c);
      PublishPresence(s, c);
      hide KeysUnique, CreatesOk, PublishedOk, QueuesOk, ProcessedOk, DeliveriesOk, PayersOk, AuthCallsOk, PaymentsOk,
           OrdersOk, CancelsOk, PaidOk, NothingLost;
    }
  }

  lemma PublishCreates(s: State, c: nat)
    requires Inv(s)
    ensures var t := DoPublish(s, c);
            CreatesOk(t.creates, t.orders, t.published) && PublishedOk(t.published, t.orders)
  {
    hide KeysUnique, QueuesOk, ProcessedOk, DeliveriesOk, PayersOk, AuthCallsOk, PaymentsOk, OrdersOk, CancelsOk,
         PaidOk, NothingLost;
  }

  lemma PublishMessages(s: State, c: nat)
    requires Inv(s)
    ensures var t := DoPublish(s, c);
            && QueuesOk(t.queue, t.dlq, t.published) && ProcessedOk(t.processed, t.published, t.orders)
            && DeliveriesOk(t.deliveries, t.published, t.processed, t.orders)
  {
    hide KeysUnique, CreatesOk, PayersOk, AuthCallsOk, PaymentsOk, OrdersOk, CancelsOk, PaidOk, NothingLost;
  }

  lemma CopyKeptByMore(queue: multiset<Message>, more: multiset<Message>, dlq: multiset<Message>,
                       deliveries: seq<Delivery>, id: MessageId)
    requires HasCopy(queue, dlq, deliveries, id)
    ensures HasCopy(queue + more, dlq, deliveries, id)
  {
    if m :| m in queue && m.id == id {
      assert m in queue + more;
    }
  }

  lemma PublishPresence(s: State, c: nat)
    requires Inv(s)
    ensures NothingLost(DoPublish(s, c))
  {
    hide KeysUnique, CreatesOk, QueuesOk, ProcessedOk, DeliveriesOk, PayersOk, AuthCallsOk, PaymentsOk, OrdersOk,
         CancelsOk, PaidOk, PublishedOk;
    var t := DoPublish(s, c);
    if t != s {
      var m := t.published[|s.published|];
      assert m in t.queue;
      forall i | 0 <= i < |s.published| && HasCopy(s.queue, s.dlq, s.deliveries, i)
        ensures HasCopy(t.queue, t.dlq, t.deliveries, i)
      {
        CopyKeptByMore(s.queue, multiset{m}, s.dlq, s.deliveries, i);
      }
    }
  }

  // ---- Cancel calls

  lemma StartCancelKeeps(s: State, user: UserId, order: OrderId)
    requires Inv(s)
    ensures Inv(DoStartCancel(s, user, order))
  {
    hide KeysUnique, PublishedOk, QueuesOk, ProcessedOk, DeliveriesOk, PayersOk, AuthCallsOk, PaymentsOk, CreatesOk,
         PaidOk, OrdersOk, HasCopy;
  }

  lemma CancelCallKeeps(s: State, k: nat, phase: CancelPhase)
    requires Inv(s) && k < |s.cancels|
    requires phase.Loaded? ==> s.cancels[k].order < |s.orders| && phase.snapshot == s.orders[s.cancels[k].order]
    ensures Inv(SetCancel(s, k, phase))
  {
    hide KeysUnique, PublishedOk, QueuesOk, ProcessedOk, DeliveriesOk, PayersOk, AuthCallsOk, PaymentsOk, CreatesOk,
         PaidOk, HasCopy;
  }

  lemma QuietCancelEventsKeep(s: State, e: Event)
    requires Inv(s)
    requires e.CancelGuard? || e.CancelLoad? || e.CancelFails?
    ensures Inv(Step(s, e))
  {
    hide Inv, SentCents, StoredAmount, FitsColumn;
    if Step(s, e) != s {
      CancelCallKeeps(s, e.k, Step(s, e).cancels[e.k].phase);
    }
  }

  lemma CancelCommitKeeps(s: State, k: nat, keep: bool)
    requires Inv(s)
    ensures Inv(DoCancelCommit(s, k, keep))
  {
    var t := DoCancelCommit(s, k, keep);
    if t != s {
      CancelCommitEvolves(s, k, keep);
      EvolvesKeeps(s, t.orders);
      EvolvesKeepsKeys(s.orders, t.orders);
      EvolvesLosesNothing(s, t.orders);
      CancelCommitDeliveries(s, k, keep);
      hide CreatesOk, PublishedOk, QueuesOk, ProcessedOk, PayersOk, AuthCallsOk, PaymentsOk, CancelsOk, PaidOk,
           OrdersOk, DeliveriesOk, KeysUnique, HasCopy;
      CancelCommitCancels(s, k, keep);
    }
  }

  lemma CancelCommitEvolves(s: State, k: nat, keep: bool)
    requires Inv(s)
    ensures var t := DoCancelCommit(s, k, keep);
            && Evolves(s.orders, t.orders) && |t.orders| == |s.orders|
            && OrdersOk(t.orders, t.processed, t.payments)
  {
    hide CreatesOk, PublishedOk, QueuesOk, ProcessedOk, PayersOk, AuthCallsOk, PaymentsOk, PaidOk, DeliveriesOk,
         KeysUnique, NothingLost;
  }

  lemma CancelCommitCancels(s: State, k: nat, keep: bool)
    requires Inv(s)
    requires CancelsOk(s.cancels, DoCancelCommit(s, k, keep).orders, s.payments)
    ensures var t := DoCancelCommit(s, k, keep); CancelsOk(t.cancels, t.orders, t.payments)
  {
    hide CreatesOk, PublishedOk, QueuesOk, ProcessedOk, PayersOk, AuthCallsOk, PaymentsOk, PaidOk, OrdersOk,
         DeliveriesOk, KeysUnique, NothingLost;
  }

  /** No payment exists for an order whose worker transaction is still open. */
  lemma NoPaymentWhileOpen(s: State, d: nat)
    requires Inv(s) && d < |s.deliveries| && s.deliveries[d].phase.InTransaction?
    ensures !OrderProcessed(s.processed, s.deliveries[d].message.order)
    ensures forall p :: 0 <= p < |s.payments| ==> s.payments[p].order != s.deliveries[d].message.order
  {
    hide CreatesOk, QueuesOk, PayersOk, AuthCallsOk, PaidOk, OrdersOk, CancelsOk, KeysUnique, NothingLost, SentCents,
         StoredAmount, FitsColumn;
    ProcessedMessageIs(s, s.deliveries[d].message);
  }

  /** ... and neither an authorization nor a handler on its way to one. */
  lemma NoPayerWhileOpen(s: State, d: nat)
    requires Inv(s) && d < |s.deliveries| && s.deliveries[d].phase.InTransaction?
    ensures forall a :: 0 <= a < |s.authCalls| ==> s.authCalls[a].order != s.deliveries[d].message.order
    ensures forall e :: 0 <= e < |s.deliveries| && Payer(s.deliveries[e].phase) ==>
              s.deliveries[e].message.order != s.deliveries[d].message.order
  {
    hide KeysUnique, CreatesOk, PublishedOk, QueuesOk, ProcessedOk, DeliveriesOk, PaymentsOk, OrdersOk, CancelsOk,
         PaidOk, NothingLost, SentCents, StoredAmount, FitsColumn;
    NoPaymentWhileOpen(s, d);
    forall e | 0 <= e < |s.deliveries| && Payer(s.deliveries[e].phase)
      ensures OrderProcessed(s.processed, s.deliveries[e].message.order)
    {
      assert RowOf(s.deliveries[e].message) in s.processed;
    }
  }

  lemma CancelCommitDeliveries(s: State, k: nat, keep: bool)
    requires Inv(s)
    ensures var t := DoCancelCommit(s, k, keep); DeliveriesOk(t.deliveries, t.published, t.processed, t.orders)
  {
    hide CreatesOk, PublishedOk, QueuesOk, ProcessedOk, PayersOk, AuthCallsOk, PaymentsOk, PaidOk, OrdersOk,
         KeysUnique, NothingLost;
    var t := DoCancelCommit(s, k, keep);
    forall d | 0 <= d < |s.deliveries| && s.deliveries[d].phase.InTransaction?
      ensures forall p :: 0 <= p < |s.payments| ==> s.payments[p].order != s.deliveries[d].message.order
    {
      NoPaymentWhileOpen(s, d);
    }
  }

  // ---- Worker

  /** Handler phases that carry no obligation of their own. */
  predicate PlainPhase(phase: HandlerPhase) {
    phase.Received? || phase.Errored? || phase.Handled? || phase.Crashed?
  }

  /** A delivery whose new phase is quiet: no open transaction and no payment under way. */
  predicate QuietUpdate(s: State, d: nat, x: Delivery) {
    && d < |s.deliveries| && x.message == s.deliveries[d].message
    && (PlainPhase(x.phase) || x.phase.Rerouted? || (x.phase.Finished? && !x.unacked))
    && (x.phase.Handled? ==> x.message.order < |s.orders| && s.orders[x.message.order].status != PENDING)
  }

  lemma QuietUpdateKeeps(s: State, d: nat, x: Delivery)
    requires Inv(s) && QuietUpdate(s, d, x)
    ensures DeliveriesOk(s.deliveries[d := x], s.published, s.processed, s.orders)
    ensures PayersOk(s.deliveries[d := x], s.processed, s.authCalls, s.payments)
    ensures PaidOk(s.paid, s.processed, s.deliveries[d := x])
  {
    hide KeysUnique, CreatesOk, PublishedOk, QueuesOk, ProcessedOk, AuthCallsOk, PaymentsOk, OrdersOk, CancelsOk,
         NothingLost, PayersOk, PaidOk;
    QuietPayers(s.deliveries, d, x, s.processed, s.authCalls, s.payments);
    QuietPaid(s.paid, s.processed, s.deliveries, d, x);
  }

  lemma QuietPayers(deliveries: seq<Delivery>, d: nat, x: Delivery, processed: set<ProcessedRow>,
                    authCalls: seq<AuthCall>, payments: seq<Payment>)
    requires PayersOk(deliveries, processed, authCalls, payments) && d < |deliveries| && !Payer(x.phase)
    ensures PayersOk(deliveries[d := x], processed, authCalls, payments)
  {
    hide OrderProcessed, PaymentIsOf;
  }

  lemma QuietPaid(paid: seq<OrderId>, processed: set<ProcessedRow>, deliveries: seq<Delivery>, d: nat, x: Delivery)
    requires PaidOk(paid, processed, deliveries) && d < |deliveries| && !Payer(x.phase)
    ensures PaidOk(paid, processed, deliveries[d := x])
  {
    hide OrderProcessed, NoRepeats;
  }

  lemma PlainHandlerKeeps(s: State, d: nat, phase: HandlerPhase)
    requires Inv(s) && d < |s.deliveries| && PlainPhase(phase) && !s.deliveries[d].phase.Finished?
    requires phase.Handled? ==> s.deliveries[d].message.order < |s.orders|
                                && s.orders[s.deliveries[d].message.order].status != PENDING
    ensures Inv(SetHandler(s, d, phase))
  {
    QuietUpdateKeeps(s, d, s.deliveries[d].(phase := phase));
    UpdateLosesNothing(s, d, s.deliveries[d].(phase := phase));
    hide KeysUnique, CreatesOk, PublishedOk, QueuesOk, ProcessedOk, DeliveriesOk, PayersOk, AuthCallsOk, PaymentsOk,
         OrdersOk, CancelsOk, PaidOk, NothingLost;
  }

  /** Replacing a delivery keeps every copy, as long as it still answers for what it answered for. */
  lemma CopyKeptByUpdate(queue: multiset<Message>, dlq: multiset<Message>, deliveries: seq<Delivery>, d: nat,
                         x: Delivery, id: MessageId)
    requires d < |deliveries| && HasCopy(queue, dlq, deliveries, id)
    requires Answers(deliveries[d], id) ==> Answers(x, id)
    ensures HasCopy(queue, dlq, deliveries[d := x], id)
  {
    if e :| 0 <= e < |deliveries| && Answers(deliveries[e], id) {
      assert Answers(deliveries[d := x][e], id);
    }
  }

  lemma UpdateLosesNothing(s: State, d: nat, x: Delivery)
    requires NothingLost(s) && d < |s.deliveries|
    requires x.message == s.deliveries[d].message && x.unacked == s.deliveries[d].unacked && !x.phase.Rerouted?
    ensures NothingLost(s.(deliveries := s.deliveries[d := x]))
  {
    hide HasCopy, SentCents, StoredAmount, FitsColumn;
    forall i | 0 <= i < |s.published| && HasCopy(s.queue, s.dlq, s.deliveries, i)
      ensures HasCopy(s.queue, s.dlq, s.deliveries[d := x], i)
    {
      CopyKeptByUpdate(s.queue, s.dlq, s.deliveries, d, x, i);
    }
  }

  lemma PlainWorkerEventsKeep(s: State, e: Event)
    requires Inv(s)
    requires e.WorkerFails? || e.AuthorizeFails? || e.AckFails? || e.Crash?
    ensures Inv(Step(s, e))
  {
    hide Inv, SentCents, StoredAmount, FitsColumn;
    if Step(s, e) != s {
      PlainHandlerKeeps(s, e.d, Step(s, e).deliveries[e.d].phase);
    }
  }

  lemma DeliverKeeps(s: State, m: Message)
    requires Inv(s)
    ensures Inv(DoDeliver(s, m))
  {
    var t := DoDeliver(s, m);
    if t != s {
      DeliverParts(s, m);
      hide KeysUnique, CreatesOk, PublishedOk, QueuesOk, ProcessedOk, DeliveriesOk, PayersOk, AuthCallsOk, PaymentsOk,
           OrdersOk, CancelsOk, PaidOk;
      forall i | 0 <= i < |s.published| && HasCopy(s.queue, s.dlq, s.deliveries, i)
        ensures HasCopy(t.queue, t.dlq, t.deliveries, i)
      {
        CopyKeptByDelivery(s.queue, s.dlq, s.deliveries, m, i);
      }
    }
  }

  lemma CopyKeptByDelivery(queue: multiset<Message>, dlq: multiset<Message>, deliveries: seq<Delivery>, m: Message,
                           id: MessageId)
    requires m in queue && HasCopy(queue, dlq, deliveries, id)
    ensures HasCopy(queue - multiset{m}, dlq, deliveries + [Delivery(m, true, Received)], id)
  {
    var later := deliveries + [Delivery(m, true, Received)];
    if n :| n in queue && n.id == id {
      if n == m {
        assert Answers(later[|deliveries|], id);
      } else {
        assert n in queue - multiset{m};
      }
    } else if e :| 0 <= e < |deliveries| && Answers(deliveries[e], id) {
      assert Answers(later[e], id);
    }
  }

  lemma DeliverParts(s: State, m: Message)
    requires Inv(s) && m in s.queue
    ensures var later := s.deliveries + [Delivery(m, true, Received)];
            && DeliveriesOk(later, s.published, s.processed, s.orders)
            && PayersOk(later, s.processed, s.authCalls, s.payments)
            && PaidOk(s.paid, s.processed, later)
            && QueuesOk(s.queue - multiset{m}, s.dlq, s.published)
  {
    hide KeysUnique, CreatesOk, PublishedOk, ProcessedOk, AuthCallsOk, PaymentsOk, OrdersOk, CancelsOk, NothingLost,
         MessageOk;
  }

  lemma RedeliverKeeps(s: State, d: nat)
    requires Inv(s)
    ensures Inv(DoRedeliver(s, d))
  {
    var t := DoRedeliver(s, d);
    if t != s {
      RedeliverParts(s, d);
      hide KeysUnique, CreatesOk, PublishedOk, QueuesOk, ProcessedOk, DeliveriesOk, PayersOk, AuthCallsOk, PaymentsOk,
           OrdersOk, CancelsOk, PaidOk;
      var m := s.deliveries[d].message;
      forall i | 0 <= i < |s.published| && HasCopy(s.queue, s.dlq, s.deliveries, i)
        ensures HasCopy(t.queue, t.dlq, t.deliveries, i)
      {
        CopyMovesToQueue(s.queue, s.dlq, s.deliveries, d, t.deliveries[d], m, i);
      }
    }
  }

  /** A delivery may stop answering when a message with its id enters the queue. */
  lemma CopyMovesToQueue(queue: multiset<Message>, dlq: multiset<Message>, deliveries: seq<Delivery>, d: nat,
                         x: Delivery,
                         m: Message, id: MessageId)
    requires d < |deliveries| && m.id == deliveries[d].message.id && HasCopy(queue, dlq, deliveries, id)
    ensures HasCopy(queue + multiset{m}, dlq, deliveries[d := x], id)
  {
    assert m in queue + multiset{m};
    if id != m.id {
      CopyKeptByUpdate(queue, dlq, deliveries, d, x, id);
      CopyKeptByMore(queue, multiset{m}, dlq, deliveries[d := x], id);
    }
  }

  lemma CopyMovesToDlq(queue: multiset<Message>, dlq: multiset<Message>, deliveries: seq<Delivery>, d: nat, x: Delivery,
                       m: Message, id: MessageId)
    requires d < |deliveries| && m.id == deliveries[d].message.id && HasCopy(queue, dlq, deliveries, id)
    ensures HasCopy(queue, dlq + multiset{m}, deliveries[d := x], id)
  {
    assert m in dlq + multiset{m};
    if id != m.id {
      CopyKeptByUpdate(queue, dlq, deliveries, d, x, id);
      if n :| n in dlq && n.id == id {
        assert n in dlq + multiset{m};
      }
    }
  }

  lemma RedeliverParts(s: State, d: nat)
    requires Inv(s) && d < |s.deliveries|
    ensures var x := s.deliveries[d].(unacked := false);
            && DeliveriesOk(s.deliveries[d := x], s.published, s.processed, s.orders)
            && PayersOk(s.deliveries[d := x], s.processed, s.authCalls, s.payments)
            && PaidOk(s.paid, s.processed, s.deliveries[d := x])
            && QueuesOk(s.queue + multiset{x.message}, s.dlq, s.published)
  {
    hide KeysUnique, CreatesOk, PublishedOk, ProcessedOk, AuthCallsOk, PaymentsOk, OrdersOk, CancelsOk, NothingLost,
         MessageOk;
  }

  lemma RerouteKeeps(s: State, d: nat)
    requires Inv(s)
    ensures Inv(DoReroute(s, d))
  {
    hide KeysUnique, CreatesOk, PublishedOk, QueuesOk, ProcessedOk, DeliveriesOk, PayersOk, AuthCallsOk, PaymentsOk,
         OrdersOk, CancelsOk, PaidOk, NothingLost;
    var t := DoReroute(s, d);
    if t != s {
      QuietUpdateKeeps(s, d, t.deliveries[d]);
      RerouteQueues(s, d);
      ReroutePresence(s, d);
    }
  }

  lemma ReroutePresence(s: State, d: nat)
    requires NothingLost(s)
    ensures NothingLost(DoReroute(s, d))
  {
    var t := DoReroute(s, d);
    if t != s {
      hide HasCopy, SentCents, StoredAmount, FitsColumn;
      var m := s.deliveries[d].message;
      forall i | 0 <= i < |s.published| && HasCopy(s.queue, s.dlq, s.deliveries, i)
        ensures HasCopy(t.queue, t.dlq, t.deliveries, i)
      {
        if m.attempt < MAX_RETRY_ATTEMPTS {
          CopyMovesToQueue(s.queue, s.dlq, s.deliveries, d, t.deliveries[d], m.(attempt := m.attempt + 1), i);
        } else {
          CopyMovesToDlq(s.queue, s.dlq, s.deliveries, d, t.deliveries[d], m, i);
        }
      }
    }
  }

  lemma RerouteQueues(s: State, d: nat)
    requires Inv(s)
    ensures var t := DoReroute(s, d); QueuesOk(t.queue, t.dlq, t.published)
  {
    hide KeysUnique, CreatesOk, PublishedOk, ProcessedOk, PayersOk, PaidOk, AuthCallsOk, PaymentsOk, OrdersOk,
         CancelsOk, NothingLost;
  }

  lemma AckKeeps(s: State, d: nat)
    requires Inv(s)
    ensures Inv(DoAck(s, d))
  {
    hide KeysUnique, CreatesOk, PublishedOk, QueuesOk, ProcessedOk, DeliveriesOk, PayersOk, AuthCallsOk, PaymentsOk,
         OrdersOk, CancelsOk, PaidOk, NothingLost;
    var t := DoAck(s, d);
    if t != s {
      QuietUpdateKeeps(s, d, t.deliveries[d]);
      AckPresence(s, d);
    }
  }

  /** An ack removes a copy only of an order that is no longer PENDING, or one that was rerouted. */
  lemma AckPresence(s: State, d: nat)
    requires Inv(s)
    ensures NothingLost(DoAck(s, d))
  {
    hide KeysUnique, CreatesOk, QueuesOk, ProcessedOk, PayersOk, AuthCallsOk, PaymentsOk, OrdersOk, CancelsOk, PaidOk,
         HasCopy;
    var t := DoAck(s, d);
    if t != s {
      var m := s.deliveries[d].message;
      forall i | 0 <= i < |s.published| && HasCopy(s.queue, s.dlq, s.deliveries, i)
                 && s.orders[s.published[i].order].status == PENDING
        ensures HasCopy(t.queue, t.dlq, t.deliveries, i)
      {
        assert s.deliveries[d].phase.Handled? ==> m.id != i;
        CopyKeptByUpdate(s.queue, s.dlq, s.deliveries, d, t.deliveries[d], i);
      }
    }
  }

  lemma WorkerBeginKeeps(s: State, d: nat)
    requires Inv(s)
    ensures Inv(DoWorkerBegin(s, d))
  {
    hide KeysUnique, CreatesOk, PublishedOk, QueuesOk, ProcessedOk, DeliveriesOk, PayersOk, AuthCallsOk, PaymentsOk,
         OrdersOk, CancelsOk, PaidOk, NothingLost;
    var t := DoWorkerBegin(s, d);
    if t != s {
      if t.deliveries[d].phase.InTransaction? {
        WorkerBeginDeliveries(s, d);
        WorkerBeginPayers(s, d);
        UpdateLosesNothing(s, d, t.deliveries[d]);
      } else {
        if t.deliveries[d].phase.Handled? {
          DuplicateIsDone(s, d);
        }
        PlainHandlerKeeps(s, d, t.deliveries[d].phase);
      }
    }
  }

  /** A delivery is skipped as a duplicate only for an order that is no longer PENDING. */
  lemma DuplicateIsDone(s: State, d: nat)
    requires Inv(s) && d < |s.deliveries| && Duplicate(s.processed, s.deliveries[d].message)
    ensures var o := s.deliveries[d].message.order; o < |s.orders| && s.orders[o].status != PENDING
  {
    hide CreatesOk, QueuesOk, PayersOk, AuthCallsOk, PaymentsOk, OrdersOk, CancelsOk, PaidOk, NothingLost;
    DuplicateIffRow(s, s.deliveries[d].message);
  }

  lemma WorkerBeginDeliveries(s: State, d: nat)
    requires Inv(s) && d < |s.deliveries|
    requires DoWorkerBegin(s, d).deliveries[d].phase.InTransaction? && DoWorkerBegin(s, d) != s
    ensures var t := DoWorkerBegin(s, d); DeliveriesOk(t.deliveries, t.published, t.processed, t.orders)
  {
    hide CreatesOk, QueuesOk, PayersOk, AuthCallsOk, PaymentsOk, CancelsOk, PaidOk, NothingLost, KeysUnique,
         PublishedOk, ProcessedOk;
    var m := s.deliveries[d].message;
    assert RowOf(m) !in s.processed;
  }

  lemma WorkerBeginPayers(s: State, d: nat)
    requires Inv(s) && d < |s.deliveries| && DoWorkerBegin(s, d).deliveries[d].phase.InTransaction?
    ensures var t := DoWorkerBegin(s, d);
            && PayersOk(t.deliveries, t.processed, t.authCalls, t.payments)
            && PaidOk(t.paid, t.processed, t.deliveries)
  {
    hide CreatesOk, QueuesOk, AuthCallsOk, PaymentsOk, CancelsOk, NothingLost, KeysUnique, PublishedOk, ProcessedOk,
         DeliveriesOk, OrdersOk, Duplicate, InsertBlocked;
  }

  lemma WorkerCommitKeeps(s: State, d: nat)
    requires Inv(s)
    ensures Inv(DoWorkerCommit(s, d))
  {
    hide KeysUnique, CreatesOk, PublishedOk, QueuesOk, ProcessedOk, DeliveriesOk, PayersOk, AuthCallsOk, PaymentsOk,
         OrdersOk, CancelsOk, PaidOk, NothingLost;
    var t := DoWorkerCommit(s, d);
    if t != s {
      WorkerCommitOrders(s, d);
      EvolvesKeeps(s, t.orders);
      EvolvesKeepsKeys(s.orders, t.orders);
      ProcessedGrows(s, t);
      WorkerCommitProcessed(s, d);
      WorkerCommitDeliveries(s, d);
      WorkerCommitPayers(s, d);
      WorkerCommitPaid(s, d);
      EvolvesLosesNothing(s, t.orders);
      UpdateLosesNothing(s.(orders := t.orders), d, t.deliveries[d]);
      SameForPresence(s.(orders := t.orders, deliveries := t.deliveries), t);
    }
  }

  lemma SameForPresence(s: State, t: State)
    requires NothingLost(s)
    requires s.published == t.published && s.orders == t.orders
    requires s.queue == t.queue && s.dlq == t.dlq && s.deliveries == t.deliveries
    ensures NothingLost(t)
  {
  }

  lemma WorkerCommitOrders(s: State, d: nat)
    requires Inv(s)
    ensures var t := DoWorkerCommit(s, d);
            && Evolves(s.orders, t.orders) && |t.orders| == |s.orders|
            && OrdersOk(t.orders, t.processed, t.payments)
  {
    hide KeysUnique, CreatesOk, PublishedOk, QueuesOk, ProcessedOk, PayersOk, AuthCallsOk, PaymentsOk, CancelsOk,
         PaidOk, NothingLost, OrdersOk, Evolves;
    ProcessedKeepsOrders(s.orders, s.processed, DoWorkerCommit(s, d).processed, s.payments);
    if Handling(s, d) && s.deliveries[d].phase.InTransaction? {
      var m, snapshot := s.deliveries[d].message, s.deliveries[d].phase.snapshot;
      if snapshot.status == PENDING {
        SavedAsProcessed(s.orders, s.processed, s.payments, m, snapshot);
      }
    }
    OrdersStay(s.orders);
  }

  lemma OrdersStay(orders: seq<Order>)
    ensures Evolves(orders, orders)
  {
  }

  lemma ProcessedKeepsOrders(orders: seq<Order>, processed: set<ProcessedRow>, more: set<ProcessedRow>,
                             payments: seq<Payment>)
    requires OrdersOk(orders, processed, payments) && processed <= more
    ensures OrdersOk(orders, more, payments)
  {
  }

  lemma SavedAsProcessed(orders: seq<Order>, processed: set<ProcessedRow>, payments: seq<Payment>, m: Message,
                         snapshot: Order)
    requires OrdersOk(orders, processed, payments) && m.order < |orders|
    requires snapshot.status == PENDING && SnapshotOk(snapshot, orders[m.order])
    ensures var later := orders[m.order := snapshot.(status := PROCESSED)];
            Evolves(orders, later) && OrdersOk(later, processed + {RowOf(m)}, payments)
  {
    ProcessedKeepsOrders(orders, processed, processed + {RowOf(m)}, payments);
    assert RowOf(m).order == m.order;
  }

  lemma ProcessedGrows(s: State, t: State)
    requires Inv(s) && s.processed <= t.processed
    requires AuthCallsOk(s.authCalls, s.processed, s.payments, t.orders)
    requires PaymentsOk(s.payments, s.processed, t.orders)
    ensures AuthCallsOk(s.authCalls, t.processed, s.payments, t.orders)
    ensures PaymentsOk(s.payments, t.processed, t.orders)
  {
    hide KeysUnique, CreatesOk, PublishedOk, QueuesOk, ProcessedOk, PayersOk, CancelsOk, PaidOk, NothingLost,
         DeliveriesOk, OrdersOk, SentCents, StoredAmount, FitsColumn;
  }

  lemma WorkerCommitProcessed(s: State, d: nat)
    requires Inv(s) && Evolves(s.orders, DoWorkerCommit(s, d).orders)
    requires ProcessedOk(s.processed, s.published, DoWorkerCommit(s, d).orders)
    ensures var t := DoWorkerCommit(s, d); ProcessedOk(t.processed, t.published, t.orders)
  {
    hide KeysUnique, CreatesOk, PublishedOk, QueuesOk, PayersOk, AuthCallsOk, PaymentsOk, CancelsOk, PaidOk,
         NothingLost, OrdersOk;
  }

  lemma OnlyOpenTransaction(s: State, d: nat, e: nat)
    requires Inv(s) && d < |s.deliveries| && e < |s.deliveries| && d != e
    requires s.deliveries[d].phase.InTransaction? && s.deliveries[e].phase.InTransaction?
    ensures s.deliveries[d].message.order != s.deliveries[e].message.order
  {
    hide KeysUnique, CreatesOk, QueuesOk, ProcessedOk, PayersOk, AuthCallsOk, PaymentsOk, OrdersOk, CancelsOk, PaidOk,
         NothingLost;
    assert s.deliveries[d].message.id != s.deliveries[e].message.id;
  }

  /** The transaction's own row is the only new one, so the other open transactions keep theirs out. */
  lemma CommittedPhaseKeepsDeliveries(deliveries: seq<Delivery>, d: nat, phase: HandlerPhase, published: seq<Message>,
                                      processed: set<ProcessedRow>, orders: seq<Order>, later: seq<Order>)
    requires DeliveriesOk(deliveries, published, processed, orders)
    requires d < |deliveries| && deliveries[d].phase.InTransaction? && |later| == |orders|
    requires var o := deliveries[d].message.order;
             && (forall i :: 0 <= i < |orders| && i != o ==> later[i] == orders[i])
             && (forall e :: 0 <= e < |deliveries| && e != d && deliveries[e].phase.InTransaction? ==>
                   deliveries[e].message.order != o)
             && (phase.Handled? || phase.ToAuthorize?) && later[o].status != PENDING
    ensures DeliveriesOk(deliveries[d := deliveries[d].(phase := phase)], published,
                         processed + {RowOf(deliveries[d].message)}, later)
  {
  }

  lemma WorkerCommitDeliveries(s: State, d: nat)
    requires Inv(s)
    ensures var t := DoWorkerCommit(s, d); DeliveriesOk(t.deliveries, t.published, t.processed, t.orders)
  {
    hide KeysUnique, CreatesOk, PublishedOk, QueuesOk, ProcessedOk, PayersOk, AuthCallsOk, PaymentsOk, OrdersOk,
         CancelsOk, PaidOk, NothingLost, DeliveriesOk;
    var t := DoWorkerCommit(s, d);
    if t != s {
      forall e | 0 <= e < |s.deliveries| && e != d && s.deliveries[e].phase.InTransaction?
        ensures s.deliveries[e].message.order != s.deliveries[d].message.order
      {
        OnlyOpenTransaction(s, e, d);
      }
      WorkerSnapshotOk(s, d);
      CommittedPhaseKeepsDeliveries(s.deliveries, d, t.deliveries[d].phase, s.published, s.processed,
                                    s.orders, t.orders);
    }
  }

  lemma WorkerSnapshotOk(s: State, d: nat)
    requires Inv(s) && d < |s.deliveries| && s.deliveries[d].phase.InTransaction?
    ensures s.deliveries[d].message.order < |s.orders|
    ensures SnapshotOk(s.deliveries[d].phase.snapshot, s.orders[s.deliveries[d].message.order])
  {
    hide KeysUnique, CreatesOk, PublishedOk, QueuesOk, ProcessedOk, PayersOk, AuthCallsOk, PaymentsOk, OrdersOk,
         CancelsOk, PaidOk, NothingLost;
  }

  /** A delivery whose order has no payer and no authorization call may become a payer, or settle. */
  lemma CommittedPhaseKeepsPayers(deliveries: seq<Delivery>, d: nat, phase: HandlerPhase, processed: set<ProcessedRow>,
                                  later: set<ProcessedRow>, authCalls: seq<AuthCall>, payments: seq<Payment>)
    requires PayersOk(deliveries, processed, authCalls, payments) && processed <= later
    requires d < |deliveries| && (phase.ToAuthorize? || !Payer(phase)) && RowOf(deliveries[d].message) in later
    requires forall a :: 0 <= a < |authCalls| ==> authCalls[a].order != deliveries[d].message.order
    requires forall e :: 0 <= e < |deliveries| && Payer(deliveries[e].phase) ==>
               deliveries[e].message.order != deliveries[d].message.order
    ensures PayersOk(deliveries[d := deliveries[d].(phase := phase)], later, authCalls, payments)
  {
  }

  lemma WorkerCommitPayers(s: State, d: nat)
    requires Inv(s)
    ensures var t := DoWorkerCommit(s, d); PayersOk(t.deliveries, t.processed, t.authCalls, t.payments)
  {
    hide KeysUnique, CreatesOk, PublishedOk, QueuesOk, ProcessedOk, DeliveriesOk, PayersOk, AuthCallsOk, PaymentsOk,
         OrdersOk, CancelsOk, PaidOk, NothingLost;
    var t := DoWorkerCommit(s, d);
    if t != s {
      NoPayerWhileOpen(s, d);
      CommittedPhaseKeepsPayers(s.deliveries, d, t.deliveries[d].phase, s.processed, t.processed,
                                s.authCalls, s.payments);
    }
  }

  lemma WorkerCommitPaid(s: State, d: nat)
    requires Inv(s)
    ensures var t := DoWorkerCommit(s, d); PaidOk(t.paid, t.processed, t.deliveries)
  {
    hide KeysUnique, CreatesOk, QueuesOk, PaymentsOk, CancelsOk, NothingLost, OrdersOk, ProcessedOk, PublishedOk,
         DeliveriesOk, PayersOk, AuthCallsOk;
    if DoWorkerCommit(s, d) != s {
      NoPaymentWhileOpen(s, d);
    }
  }

  lemma StartAuthorizeKeeps(s: State, d: nat)
    requires Inv(s)
    ensures Inv(DoStartAuthorize(s, d))
  {
    hide KeysUnique, CreatesOk, PublishedOk, QueuesOk, ProcessedOk, DeliveriesOk, PayersOk, AuthCallsOk, PaymentsOk,
         OrdersOk, CancelsOk, PaidOk, NothingLost;
    var t := DoStartAuthorize(s, d);
    if t != s {
      if t.deliveries[d].phase.Errored? {
        PlainHandlerKeeps(s, d, Errored);
      } else {
        PayerMoves(s, d, t.deliveries[d].phase);
        StartAuthorizeCalls(s, d);
        UpdateLosesNothing(s, d, t.deliveries[d]);
        SameForPresence(s.(deliveries := t.deliveries), t);
      }
    }
  }

  /** A payer that moves on to its next phase stays the only one of its order. */
  lemma PayerMoves(s: State, d: nat, phase: HandlerPhase)
    requires Inv(s) && d < |s.deliveries| && Payer(s.deliveries[d].phase) && Payer(phase)
    ensures DeliveriesOk(s.deliveries[d := s.deliveries[d].(phase := phase)], s.published, s.processed, s.orders)
    ensures PaidOk(s.paid, s.processed, s.deliveries[d := s.deliveries[d].(phase := phase)])
  {
    hide KeysUnique, CreatesOk, PublishedOk, QueuesOk, ProcessedOk, PayersOk, AuthCallsOk, PaymentsOk, OrdersOk,
         CancelsOk, NothingLost;
  }

  lemma StartAuthorizeCalls(s: State, d: nat)
    requires Inv(s)
    ensures var t := DoStartAuthorize(s, d);
            && PayersOk(t.deliveries, t.processed, t.authCalls, t.payments)
            && AuthCallsOk(t.authCalls, t.processed, t.payments, t.orders)
  {
    hide KeysUnique, CreatesOk, QueuesOk, PaymentsOk, CancelsOk, NothingLost, OrdersOk, ProcessedOk, PublishedOk,
         DeliveriesOk, PaidOk, PayersOk, AuthCallsOk, SentCents;
    if d < |s.deliveries| && s.deliveries[d].phase.ToAuthorize? {
      var o := s.deliveries[d].message.order;
      if o >= |s.orders| {
        QuietPayers(s.deliveries, d, s.deliveries[d].(phase := Errored), s.processed, s.authCalls, s.payments);
      } else {
        var call := AuthCall(o, SentCents(s.orders[o].lines), Sent);
        AskingPayers(s.deliveries, d, s.processed, s.authCalls, s.payments, call);
        AskingCalls(s, d, s.deliveries[d].message);
      }
    }
  }

  lemma AskingPayers(deliveries: seq<Delivery>, d: nat, processed: set<ProcessedRow>, authCalls: seq<AuthCall>,
                     payments: seq<Payment>, call: AuthCall)
    requires PayersOk(deliveries, processed, authCalls, payments)
    requires d < |deliveries| && deliveries[d].phase.ToAuthorize? && call.order == deliveries[d].message.order
    ensures PayersOk(deliveries[d := deliveries[d].(phase := Authorizing(|authCalls|))], processed, authCalls + [call],
                     payments)
  {
    hide OrderProcessed, PaymentIsOf;
  }

  lemma AskingCalls(s: State, d: nat, m: Message)
    requires PayersOk(s.deliveries, s.processed, s.authCalls, s.payments)
    requires AuthCallsOk(s.authCalls, s.processed, s.payments, s.orders)
    requires d < |s.deliveries| && s.deliveries[d].phase.ToAuthorize? && s.deliveries[d].message == m
    requires m.order < |s.orders|
    ensures AuthCallsOk(s.authCalls + [AuthCall(m.order, SentCents(s.orders[m.order].lines), Sent)], s.processed,
                        s.payments, s.orders)
  {
    hide SentCents;
    assert RowOf(m) in s.processed;
  }

  lemma AuthorizeReturnsKeeps(s: State, d: nat)
    requires Inv(s)
    ensures Inv(DoAuthorizeReturns(s, d))
  {
    hide KeysUnique, CreatesOk, PublishedOk, QueuesOk, ProcessedOk, DeliveriesOk, PayersOk, AuthCallsOk, PaymentsOk,
         OrdersOk, CancelsOk, PaidOk, NothingLost;
    var t := DoAuthorizeReturns(s, d);
    if t != s {
      PayerMoves(s, d, t.deliveries[d].phase);
      AuthorizeReturnsPayers(s, d);
      UpdateLosesNothing(s, d, t.deliveries[d]);
    }
  }

  lemma AuthorizeReturnsPayers(s: State, d: nat)
    requires Inv(s)
    ensures var t := DoAuthorizeReturns(s, d); PayersOk(t.deliveries, t.processed, t.authCalls, t.payments)
  {
    hide KeysUnique, CreatesOk, QueuesOk, PaymentsOk, CancelsOk, NothingLost, OrdersOk, ProcessedOk, PublishedOk,
         DeliveriesOk, PaidOk, SentCents, StoredAmount, FitsColumn;
  }

  lemma PaymentWriteKeeps(s: State, d: nat)
    requires Inv(s)
    ensures Inv(DoPaymentWrite(s, d))
  {
    hide KeysUnique, CreatesOk, PublishedOk, QueuesOk, ProcessedOk, DeliveriesOk, PayersOk, AuthCallsOk, PaymentsOk,
         OrdersOk, CancelsOk, PaidOk, NothingLost;
    var t := DoPaymentWrite(s, d);
    if t != s {
      PaymentWriteOrders(s, d);
      EvolvesKeeps(s, t.orders);
      EvolvesKeepsKeys(s.orders, t.orders);
      PaymentWriteDeliveries(s, d);
      PaymentWritePayers(s, d);
      EvolvesLosesNothing(s, t.orders);
      UpdateLosesNothing(s.(orders := t.orders), d, t.deliveries[d]);
      SameForPresence(s.(orders := t.orders, deliveries := t.deliveries), t);
    }
  }

  lemma PaymentWriteOrders(s: State, d: nat)
    requires Inv(s)
    ensures var t := DoPaymentWrite(s, d);
            && Evolves(s.orders, t.orders) && |t.orders| == |s.orders|
            && OrdersOk(t.orders, t.processed, t.payments)
  {
    hide KeysUnique, CreatesOk, PublishedOk, QueuesOk, AuthCallsOk, PaymentsOk, CancelsOk, PaidOk, NothingLost,
         DeliveriesOk;
    if d < |s.deliveries| && s.deliveries[d].phase.Writing? {
      assert RowOf(s.deliveries[d].message) in s.processed;
    }
  }

  lemma PaymentWriteDeliveries(s: State, d: nat)
    requires Inv(s)
    ensures var t := DoPaymentWrite(s, d); DeliveriesOk(t.deliveries, t.published, t.processed, t.orders)
  {
    hide KeysUnique, CreatesOk, PublishedOk, QueuesOk, PayersOk, AuthCallsOk, PaymentsOk, CancelsOk, PaidOk,
         NothingLost, OrdersOk, ProcessedOk, SnapshotOk, MessageOk;
    if DoPaymentWrite(s, d) != s {
      PayerExcludesOpen(s, d);
    }
  }

  /** While a payment is under way no worker transaction is open for the same order. */
  lemma PayerExcludesOpen(s: State, d: nat)
    requires Inv(s) && d < |s.deliveries| && Payer(s.deliveries[d].phase)
    ensures forall e :: 0 <= e < |s.deliveries| && s.deliveries[e].phase.InTransaction? ==>
              s.deliveries[e].message.order != s.deliveries[d].message.order
  {
    hide KeysUnique, CreatesOk, PublishedOk, QueuesOk, AuthCallsOk, PaymentsOk, CancelsOk, PaidOk, NothingLost,
         OrdersOk, ProcessedOk;
    assert RowOf(s.deliveries[d].message) in s.processed;
    forall e | 0 <= e < |s.deliveries| && s.deliveries[e].phase.InTransaction?
      ensures s.deliveries[e].message.order != s.deliveries[d].message.order
    {
      NoPaymentWhileOpen(s, e);
    }
  }

  lemma PaymentWritePayers(s: State, d: nat)
    requires Inv(s)
    ensures var t := DoPaymentWrite(s, d);
            && PayersOk(t.deliveries, t.processed, t.authCalls, t.payments)
            && PaidOk(t.paid, t.processed, t.deliveries)
  {
    hide KeysUnique, CreatesOk, PublishedOk, QueuesOk, AuthCallsOk, PaymentsOk, CancelsOk, NothingLost, OrdersOk,
         ProcessedOk, DeliveriesOk;
    if d < |s.deliveries| && s.deliveries[d].phase.Writing? {
      assert RowOf(s.deliveries[d].message) in s.processed;
    }
  }

  // ---- Payments service

  lemma AuthCallKeeps(s: State, a: nat, phase: AuthPhase)
    requires Inv(s) && a < |s.authCalls|
    requires phase.Replied? ==> PaymentIsOf(s.payments, phase.payment, s.authCalls[a].order)
    requires phase.FoundNone? ==> s.authCalls[a].amount > 0
    ensures Inv(SetAuth(s, a, phase))
  {
    hide KeysUnique, CreatesOk, PublishedOk, QueuesOk, ProcessedOk, DeliveriesOk, PaymentsOk, OrdersOk, CancelsOk,
         PaidOk, HasCopy, SentCents, StoredAmount, FitsColumn;
  }

  lemma QuietServerEventsKeep(s: State, e: Event)
    requires Inv(s)
    requires e.ServerFind? || e.ServerFails?
    ensures Inv(Step(s, e))
  {
    hide Inv, SentCents, StoredAmount, FitsColumn;
    if Step(s, e) != s {
      AuthCallKeeps(s, e.a, Step(s, e).authCalls[e.a].phase);
    }
  }

  lemma PaymentAppended(s: State, payment: Payment)
    requires Inv(s) && OrderProcessed(s.processed, payment.order) && payment.order < |s.orders|
    requires payment.amount == StoredAmount(SentCents(s.orders[payment.order].lines)) && FitsColumn(payment.amount)
    requires 0 < SentCents(s.orders[payment.order].lines)
    requires FindPayment(s.payments, payment.order).None?
    ensures Inv(s.(payments := s.payments + [payment]))
  {
    hide KeysUnique, CreatesOk, PublishedOk, QueuesOk, ProcessedOk, DeliveriesOk, PaidOk, HasCopy, FindPayment,
         SentCents, StoredAmount, FitsColumn;
    assert forall p :: 0 <= p < |s.payments| ==> s.payments[p].order != payment.order;
  }

  lemma ServerInsertKeeps(s: State, a: nat)
    requires Inv(s)
    ensures Inv(DoServerInsert(s, a))
  {
    hide Inv, SentCents, StoredAmount, FitsColumn;
    var t := DoServerInsert(s, a);
    if t != s {
      var call := s.authCalls[a];
      if t.payments != s.payments {
        ServerCallOk(s, a);
        PaymentAppended(s, Payment(call.order, StoredAmount(call.amount)));
        AuthCallKeeps(s.(payments := t.payments), a, t.authCalls[a].phase);
      } else {
        AuthCallKeeps(s, a, t.authCalls[a].phase);
      }
    }
  }

  lemma ServerCallOk(s: State, a: nat)
    requires Inv(s) && a < |s.authCalls|
    ensures OrderProcessed(s.processed, s.authCalls[a].order) && s.authCalls[a].order < |s.orders|
    ensures s.authCalls[a].amount == SentCents(s.orders[s.authCalls[a].order].lines)
    ensures s.authCalls[a].phase.FoundNone? ==> s.authCalls[a].amount > 0
  {
    hide KeysUnique, CreatesOk, PublishedOk, QueuesOk, ProcessedOk, DeliveriesOk, PayersOk, PaymentsOk, OrdersOk,
         CancelsOk, PaidOk, NothingLost, SentCents, StoredAmount, FitsColumn;
  }

  lemma AdminWriteKeeps(s: State, p: ProductId, row: Row)
    requires Inv(s)
    ensures Inv(DoAdminWrite(s, p, row))
  {
    hide KeysUnique, CreatesOk, PublishedOk, QueuesOk, ProcessedOk, DeliveriesOk, PayersOk, AuthCallsOk, PaymentsOk,
         OrdersOk, CancelsOk, PaidOk, HasCopy;
  }

  // ---- Every event, every run

  lemma StepKeepsInv(s: State, e: Event)
    requires Inv(s)
    ensures Inv(Step(s, e))
  {
    hide Inv, SameBooks, NoNewPayer, DoStartCreate, DoCheckKey, DoPrecheck, DoCreateTx, DoCreateTxFails, DoRecover,
         DoPublish, DoPublishFails, DoStartCancel, DoCancelGuard, DoCancelLoad, DoCancelCommit, DoCancelFails,
         DoDeliver, DoWorkerBegin, DoWorkerCommit, DoWorkerFails, DoStartAuthorize, DoAuthorizeFails,
         DoAuthorizeReturns, DoPaymentWrite, DoReroute, DoAck, DoAckFails, DoCrash, DoRedeliver, DoServerFind,
         DoServerInsert, DoServerFails, DoAdminWrite, SentCents, StoredAmount, FitsColumn;
    match e
    case StartCreate(user, key, items) => StartCreateKeeps(s, user, key, items);
    case CheckKey(c) => KeyLookupsKeep(s, c);
    case Recover(c) => KeyLookupsKeep(s, c);
    case CreateTx(c) => CreateTxKeeps(s, c);
    case Publish(c) => PublishKeeps(s, c);
    case Precheck(c) => QuietCreateEventsKeep(s, e);
    case CreateTxFails(c) => QuietCreateEventsKeep(s, e);
    case PublishFails(c) => QuietCreateEventsKeep(s, e);
    case StartCancel(user, order) => StartCancelKeeps(s, user, order);
    case CancelGuard(k) => QuietCancelEventsKeep(s, e);
    case CancelLoad(k) => QuietCancelEventsKeep(s, e);
    case CancelFails(k) => QuietCancelEventsKeep(s, e);
    case CancelCommit(k, keep) => CancelCommitKeeps(s, k, keep);
    case Deliver(m) => DeliverKeeps(s, m);
    case WorkerBegin(d) => WorkerBeginKeeps(s, d);
    case WorkerCommit(d) => WorkerCommitKeeps(s, d);
    case StartAuthorize(d) => StartAuthorizeKeeps(s, d);
    case AuthorizeReturns(d) => AuthorizeReturnsKeeps(s, d);
    case PaymentWrite(d) => PaymentWriteKeeps(s, d);
    case Reroute(d) => RerouteKeeps(s, d);
    case Ack(d) => AckKeeps(s, d);
    case Redeliver(d) => RedeliverKeeps(s, d);
    case WorkerFails(d) => PlainWorkerEventsKeep(s, e);
    case AuthorizeFails(d) => PlainWorkerEventsKeep(s, e);
    case AckFails(d) => PlainWorkerEventsKeep(s, e);
    case Crash(d) => PlainWorkerEventsKeep(s, e);
    case ServerFind(a) => QuietServerEventsKeep(s, e);
    case ServerFails(a) => QuietServerEventsKeep(s, e);
    case ServerInsert(a) => ServerInsertKeeps(s, a);
    case AdminWrite(p, row) => AdminWriteKeeps(s, p, row);
  }

  lemma {:induction false} RunKeepsInv(s: State, es: seq<Event>)
    requires Inv(s)
    ensures Inv(Run(s, es))
    decreases |es|
  {
    if es != [] {
      StepKeepsInv(s, es[0]);
      RunKeepsInv(Step(s, es[0]), es[1..]);
    }
  }

  lemma EveryRunKeepsInv(s0: State, es: seq<Event>)
    requires Initial(s0)
    ensures Inv(Run(s0, es))
  {
    InitialInv(s0);
    RunKeepsInv(s0, es);
  }
}
