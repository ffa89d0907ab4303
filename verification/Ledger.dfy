/** Conservation of stock over every run of the protocol. */
module Ledger {
  import opened Stock
  import opened Protocol
  import opened Invariants

  /** What an order takes out of stock: nothing once it is cancelled. */
  function Weight(o: Order, p: ProductId): int {
    if o.status == CANCELLED then 0 else Quantity(ItemsOf(o.lines), p)
  }

  /** The quantity of `p` in all orders that are not cancelled. */
  function Held(orders: seq<Order>, p: ProductId): int {
    if orders == [] then 0 else Held(orders[..|orders| - 1], p) + Weight(orders[|orders| - 1], p)
  }

  predicate OverrunsInRange(overruns: seq<Overrun>, orders: seq<Order>) {
    forall i :: 0 <= i < |overruns| ==> overruns[i].order < |orders|
  }

  /** The quantity of `p` counted twice: once per unguarded write that landed on a cancelled order. */
  function Overrun(overruns: seq<Overrun>, orders: seq<Order>, p: ProductId): int
    requires OverrunsInRange(overruns, orders)
  {
    if overruns == [] then 0
    else
      Overrun(overruns[..|overruns| - 1], orders, p)
      + Quantity(ItemsOf(orders[overruns[|overruns| - 1].order].lines), p)
  }

  lemma {:induction false} HeldUpdate(orders: seq<Order>, o: nat, x: Order, p: ProductId)
    requires o < |orders|
    ensures Held(orders[o := x], p) == Held(orders, p) - Weight(orders[o], p) + Weight(x, p)
  {
    var n := |orders| - 1;
    if o == n {
      assert orders[o := x][..n] == orders[..n];
    } else {
      assert orders[o := x][..n] == orders[..n][o := x];
      HeldUpdate(orders[..n], o, x, p);
    }
  }

  lemma HeldAppend(orders: seq<Order>, x: Order, p: ProductId)
    ensures Held(orders + [x], p) == Held(orders, p) + Weight(x, p)
  {
    assert (orders + [x])[..|orders|] == orders;
  }

  lemma {:induction false} OverrunStable(overruns: seq<Overrun>, orders: seq<Order>, later: seq<Order>, p: ProductId)
    requires OverrunsInRange(overruns, orders) && Evolves(orders, later)
    ensures OverrunsInRange(overruns, later) && Overrun(overruns, later, p) == Overrun(overruns, orders, p)
  {
    if overruns != [] {
      OverrunStable(overruns[..|overruns| - 1], orders, later, p);
      assert SameIdentity(orders[overruns[|overruns| - 1].order], later[overruns[|overruns| - 1].order]);
    }
  }

  lemma OverrunAppend(overruns: seq<Overrun>, x: Overrun, orders: seq<Order>, p: ProductId)
    requires OverrunsInRange(overruns + [x], orders)
    ensures OverrunsInRange(overruns, orders) && x.order < |orders|
    ensures Overrun(overruns + [x], orders, p)
         == Overrun(overruns, orders, p) + Quantity(ItemsOf(orders[x.order].lines), p)
  {
    assert (overruns + [x])[..|overruns|] == overruns;
    assert forall i :: 0 <= i < |overruns| ==> (overruns + [x])[i] == overruns[i];
    assert (overruns + [x])[|overruns|] == x;
  }

  /** The books of product `p`, relative to the stock the run began with. */
  predicate Balanced(s: State, p: ProductId, initial: int) {
    && p in s.products && !s.products[p].deleted
    && OverrunsInRange(s.overruns, s.orders)
    && s.products[p].stock + Held(s.orders, p) == initial + Overrun(s.overruns, s.orders, p)
  }

  lemma BalanceByBooks(s: State, t: State, p: ProductId, initial: int)
    requires Balanced(s, p, initial)
    requires t.products == s.products && t.orders == s.orders && t.overruns == s.overruns
    ensures Balanced(t, p, initial)
  {
  }

  lemma PricedLinesItems(items: seq<Item>, table: Table)
    requires forall i :: 0 <= i < |items| ==> items[i].product in table
    ensures ItemsOf(PricedLines(items, table)) == items
  {
  }

  lemma CreateTxBalances(s: State, c: nat, p: ProductId, initial: int)
    requires Balanced(s, p, initial)
    ensures Balanced(DoCreateTx(s, c), p, initial)
  {
    hide FirstRejection, UniqueViolated, ItemsOf, ProductIds, LockedRows, Held, Overrun, Quantity, OverrunsInRange;
    var t := DoCreateTx(s, c);
    if |t.orders| > |s.orders| {
      var call := s.creates[c];
      var order := t.orders[|s.orders|];
      PricedLinesItems(call.items, LockedRows(s.products, ProductIds(call.items)));
      assert ItemsOf(order.lines) == call.items;
      NewOrderBalances(s, t, order, p, initial);
    } else {
      BalanceByBooks(s, t, p, initial);
    }
  }

  lemma NewOrderBalances(s: State, t: State, order: Order, p: ProductId, initial: int)
    requires Balanced(s, p, initial) && order.status == PENDING
    requires t.orders == s.orders + [order] && t.overruns == s.overruns
    requires t.products == Taken(s.products, ItemsOf(order.lines))
    ensures Balanced(t, p, initial)
  {
    hide ItemsOf, Quantity;
    HeldAppend(s.orders, order, p);
    OverrunStable(s.overruns, s.orders, t.orders, p);
  }

  /** Saving one order row: stock comes back when the row is saved as CANCELLED, and a row that
      was CANCELLED before is an overrun. */
  lemma SaveBalances(s: State, t: State, o: nat, v: Overrun, p: ProductId, initial: int)
    requires Balanced(s, p, initial) && o < |s.orders| == |t.orders|
    requires Evolves(s.orders, t.orders) && t.orders == s.orders[o := t.orders[o]]
    requires v.order == o && t.overruns == if s.orders[o].status == CANCELLED then s.overruns + [v] else s.overruns
    requires p in t.products && !t.products[p].deleted
    requires var back := if t.orders[o].status == CANCELLED then Quantity(ItemsOf(s.orders[o].lines), p) else 0;
             t.products[p].stock == s.products[p].stock + back
    ensures Balanced(t, p, initial)
  {
    hide ItemsOf, Quantity;
    assert SameIdentity(s.orders[o], t.orders[o]);
    HeldUpdate(s.orders, o, t.orders[o], p);
    OverrunStable(s.overruns, s.orders, t.orders, p);
    if s.orders[o].status == CANCELLED {
      assert OverrunsInRange(t.overruns, t.orders);
      OverrunAppend(s.overruns, v, t.orders, p);
    }
  }

  lemma CancelCommitBalances(s: State, k: nat, keep: bool, p: ProductId, initial: int)
    requires Inv(s) && Balanced(s, p, initial)
    ensures Balanced(DoCancelCommit(s, k, keep), p, initial)
  {
    hide Inv, Held, Overrun, OverrunsInRange, Quantity, ItemsOf, Evolves;
    var t := DoCancelCommit(s, k, keep);
    if t != s {
      CancelCommitEvolves(s, k, keep);
      CancelSnapshot(s, k);
      SaveBalances(s, t, s.cancels[k].order, CancelledAgain(s.cancels[k].order), p, initial);
    }
  }

  lemma CancelSnapshot(s: State, k: nat)
    requires Inv(s) && k < |s.cancels| && s.cancels[k].phase.Loaded?
    ensures s.cancels[k].order < |s.orders|
    ensures s.cancels[k].phase.snapshot.lines == s.orders[s.cancels[k].order].lines
  {
    hide KeysUnique, CreatesOk, PublishedOk, QueuesOk, ProcessedOk, DeliveriesOk, PayersOk, AuthCallsOk, PaymentsOk,
         OrdersOk, PaidOk, NothingLost;
  }

  lemma WorkerSnapshot(s: State, d: nat)
    requires Inv(s) && d < |s.deliveries| && s.deliveries[d].phase.InTransaction?
    ensures s.deliveries[d].message.order < |s.orders|
    ensures SnapshotOk(s.deliveries[d].phase.snapshot, s.orders[s.deliveries[d].message.order])
  {
    hide KeysUnique, CreatesOk, PublishedOk, QueuesOk, ProcessedOk, CancelsOk, PayersOk, AuthCallsOk, PaymentsOk,
         OrdersOk, PaidOk, NothingLost;
  }

  lemma WorkerCommitBalances(s: State, d: nat, p: ProductId, initial: int)
    requires Inv(s) && Balanced(s, p, initial)
    ensures Balanced(DoWorkerCommit(s, d), p, initial)
  {
    hide Inv, Held, Overrun, OverrunsInRange, Quantity, ItemsOf, Evolves;
    var t := DoWorkerCommit(s, d);
    if t.orders == s.orders && t.overruns == s.overruns {
      BalanceByBooks(s, t, p, initial);
    } else {
      WorkerSnapshot(s, d);
      WorkerCommitOrders(s, d);
      var o := s.deliveries[d].message.order;
      SaveBalances(s, t, o, ProcessedAfterCancel(o), p, initial);
    }
  }

  lemma PaymentWriteBalances(s: State, d: nat, p: ProductId, initial: int)
    requires Inv(s) && Balanced(s, p, initial)
    ensures Balanced(DoPaymentWrite(s, d), p, initial)
  {
    hide Inv, Held, Overrun, OverrunsInRange, Quantity, ItemsOf, Evolves;
    var t := DoPaymentWrite(s, d);
    if t != s {
      PaymentWriteOrders(s, d);
      SaveBalances(s, t, s.deliveries[d].message.order, PaidAfterCancel(s.deliveries[d].message.order), p, initial);
    }
  }

  /** The events that write neither products nor orders. */
  predicate LeavesBooks(e: Event) {
    !e.CreateTx? && !e.CancelCommit? && !e.WorkerCommit? && !e.PaymentWrite? && !e.AdminWrite?
  }

  lemma BooksUntouched(s: State, e: Event)
    requires LeavesBooks(e)
    ensures SameBooks(s, Step(s, e)) && NoNewPayer(s.deliveries, Step(s, e).deliveries)
  {
    hide DoStartCreate, DoCheckKey, DoPrecheck, DoCreateTxFails, DoRecover, DoPublish, DoPublishFails, DoStartCancel,
         DoCancelGuard, DoCancelLoad, DoCancelFails, DoDeliver, DoWorkerBegin, DoWorkerFails, DoStartAuthorize,
         DoAuthorizeFails, DoAuthorizeReturns, DoReroute, DoAck, DoAckFails, DoCrash, DoRedeliver, DoServerFind,
         DoServerInsert, DoServerFails, SameBooks, NoNewPayer;
  }

  lemma StepBalances(s: State, e: Event, p: ProductId, initial: int)
    requires Inv(s) && Balanced(s, p, initial)
    requires p !in Step(s, e).touched
    ensures Balanced(Step(s, e), p, initial)
  {
    hide Inv, Balanced;
    if LeavesBooks(e) {
      BooksUntouched(s, e);
      BalanceByBooks(s, Step(s, e), p, initial);
    } else {
      match e
      case CreateTx(c) => CreateTxBalances(s, c, p, initial);
      case CancelCommit(k, keep) => CancelCommitBalances(s, k, keep, p, initial);
      case WorkerCommit(d) => WorkerCommitBalances(s, d, p, initial);
      case PaymentWrite(d) => PaymentWriteBalances(s, d, p, initial);
      case AdminWrite(q, row) => AdminWriteElsewhere(s, q, row, p, initial);
    }
  }

  lemma AdminWriteElsewhere(s: State, q: ProductId, row: Row, p: ProductId, initial: int)
    requires Balanced(s, p, initial) && q != p
    ensures Balanced(DoAdminWrite(s, q, row), p, initial)
  {
  }

  lemma TouchedGrows(s: State, e: Event)
    ensures s.touched <= Step(s, e).touched
  {
    hide Taken, GivenBack, FirstRejection, LockedRows, NoNewPayer, DoStartCreate, DoCheckKey, DoPrecheck,
         DoCreateTxFails, DoRecover, DoPublish, DoPublishFails, DoStartCancel, DoCancelGuard, DoCancelLoad,
         DoCancelFails, DoDeliver, DoWorkerBegin, DoWorkerFails, DoStartAuthorize, DoAuthorizeFails,
         DoAuthorizeReturns, DoReroute, DoAck, DoAckFails, DoCrash, DoRedeliver, DoServerFind, DoServerInsert,
         DoServerFails;
    if LeavesBooks(e) {
      BooksUntouched(s, e);
    }
  }

  lemma {:induction false} TouchedGrowsInRun(s: State, es: seq<Event>)
    ensures s.touched <= Run(s, es).touched
    decreases |es|
  {
    if es != [] {
      TouchedGrows(s, es[0]);
      TouchedGrowsInRun(Step(s, es[0]), es[1..]);
    }
  }

  lemma {:induction false} RunBalances(s: State, es: seq<Event>, p: ProductId, initial: int)
    requires Inv(s) && Balanced(s, p, initial) && p !in Run(s, es).touched
    ensures Balanced(Run(s, es), p, initial)
    decreases |es|
  {
    if es != [] {
      TouchedGrowsInRun(Step(s, es[0]), es[1..]);
      StepKeepsInv(s, es[0]);
      StepBalances(s, es[0], p, initial);
      RunBalances(Step(s, es[0]), es[1..], p, initial);
    }
  }

  /** The exact stock ledger, in every reachable state of every interleaving. */
  lemma ExactLedger(s0: State, es: seq<Event>, p: ProductId)
    requires Initial(s0) && p in s0.products && !s0.products[p].deleted
    requires p !in Run(s0, es).touched
    ensures var t := Run(s0, es);
            && p in t.products && OverrunsInRange(t.overruns, t.orders)
            && t.products[p].stock + Held(t.orders, p) == s0.products[p].stock + Overrun(t.overruns, t.orders, p)
  {
    InitialInv(s0);
    RunBalances(s0, es, p, s0.products[p].stock);
  }

  // ---- How orders evolve

  lemma StepEvolves(s: State, e: Event)
    requires Inv(s)
    ensures Evolves(s.orders, Step(s, e).orders)
  {
    hide Inv, NoNewPayer, DoStartCreate, DoCheckKey, DoPrecheck, DoCreateTx, DoCreateTxFails, DoRecover, DoPublish,
         DoPublishFails, DoStartCancel, DoCancelGuard, DoCancelLoad, DoCancelCommit, DoCancelFails, DoDeliver,
         DoWorkerBegin, DoWorkerCommit, DoWorkerFails, DoStartAuthorize, DoAuthorizeFails, DoAuthorizeReturns,
         DoPaymentWrite, DoReroute, DoAck, DoAckFails, DoCrash, DoRedeliver, DoServerFind, DoServerInsert,
         DoServerFails;
    if LeavesBooks(e) {
      BooksUntouched(s, e);
    } else {
      match e
      case CancelCommit(k, keep) => if DoCancelCommit(s, k, keep) != s { CancelCommitEvolves(s, k, keep); }
      case WorkerCommit(d) => WorkerCommitOrders(s, d);
      case PaymentWrite(d) => PaymentWriteOrders(s, d);
      case CreateTx(c) => CreateTxEvolves(s, c);
      case AdminWrite(q, row) =>
    }
  }

  lemma CreateTxEvolves(s: State, c: nat)
    ensures Evolves(s.orders, DoCreateTx(s, c).orders)
  {
    hide Taken, FirstRejection, LockedRows, PricedLines;
  }

  lemma {:induction false} RunEvolves(s: State, es: seq<Event>)
    requires Inv(s)
    ensures Evolves(s.orders, Run(s, es).orders)
    decreases |es|
  {
    hide Inv, Step;
    if es != [] {
      var t := Step(s, es[0]);
      StepEvolves(s, es[0]);
      StepKeepsInv(s, es[0]);
      RunEvolves(t, es[1..]);
      forall o | 0 <= o < |s.orders| ensures SameIdentity(s.orders[o], Run(s, es).orders[o]) {
        assert SameIdentity(s.orders[o], t.orders[o]);
      }
    }
  }

  // ---- Positive quantities

  predicate QuantitiesOk(creates: seq<CreateCall>, orders: seq<Order>) {
    && (forall c :: 0 <= c < |creates| && !creates[c].phase.Thrown? ==> ValidQuantities(creates[c].items))
    && (forall o :: 0 <= o < |orders| ==> ValidQuantities(ItemsOf(orders[o].lines)))
  }

  predicate CallerEvent(e: Event) {
    || e.StartCreate? || e.CheckKey? || e.Precheck? || e.CreateTx? || e.CreateTxFails?
    || e.Recover? || e.Publish? || e.PublishFails?
  }

  /** Calls keep their items, and a call that has thrown stays thrown. */
  predicate CallsEvolve(creates: seq<CreateCall>, later: seq<CreateCall>) {
    && |creates| <= |later|
    && (forall c :: 0 <= c < |creates| ==>
          later[c].items == creates[c].items && (creates[c].phase.Thrown? ==> later[c].phase.Thrown?))
  }

  lemma StepCalls(s: State, e: Event)
    ensures var t := Step(s, e);
            && CallsEvolve(s.creates, t.creates)
            && |t.creates| == |s.creates| + if e.StartCreate? then 1 else 0
  {
    hide CallsEvolve, Step;
    if CallerEvent(e) {
      CallerCalls(s, e);
    } else {
      OtherCalls(s, e);
      assert CallsEvolve(s.creates, s.creates) by { SameCalls(s.creates); }
    }
  }

  lemma SameCalls(creates: seq<CreateCall>)
    ensures CallsEvolve(creates, creates)
  {
  }

  lemma CallerCalls(s: State, e: Event)
    requires CallerEvent(e)
    ensures CallsEvolve(s.creates, Step(s, e).creates)
    ensures |Step(s, e).creates| == |s.creates| + if e.StartCreate? then 1 else 0
  {
    hide CallsEvolve, Step;
    if e.StartCreate? || e.CheckKey? || e.Precheck? {
      EarlyCalls(s, e);
    } else if e.CreateTx? || e.CreateTxFails? {
      TransactionCalls(s, e);
    } else {
      LateCalls(s, e);
    }
  }

  lemma EarlyCalls(s: State, e: Event)
    requires e.StartCreate? || e.CheckKey? || e.Precheck?
    ensures CallsEvolve(s.creates, Step(s, e).creates)
    ensures |Step(s, e).creates| == |s.creates| + if e.StartCreate? then 1 else 0
  {
    hide LockedRows, FindKey, DoCreateTx, DoCreateTxFails, DoRecover, DoPublish, DoPublishFails, DoStartCancel,
         DoCancelGuard, DoCancelLoad, DoCancelFails, DoCancelCommit, DoDeliver, DoWorkerBegin, DoWorkerCommit,
         DoWorkerFails, DoStartAuthorize, DoAuthorizeFails, DoAuthorizeReturns, DoPaymentWrite, DoReroute, DoAck,
         DoAckFails, DoCrash, DoRedeliver, DoServerFind, DoServerInsert, DoServerFails, DoAdminWrite, SameBooks,
         NoNewPayer;
  }

  lemma TransactionCalls(s: State, e: Event)
    requires e.CreateTx? || e.CreateTxFails?
    ensures CallsEvolve(s.creates, Step(s, e).creates) && |Step(s, e).creates| == |s.creates|
  {
    hide FirstRejection, Taken, LockedRows, FindKey, DoStartCreate, DoCheckKey, DoPrecheck, DoRecover, DoPublish,
         DoPublishFails, DoStartCancel, DoCancelGuard, DoCancelLoad, DoCancelFails, DoCancelCommit, DoDeliver,
         DoWorkerBegin, DoWorkerCommit, DoWorkerFails, DoStartAuthorize, DoAuthorizeFails, DoAuthorizeReturns,
         DoPaymentWrite, DoReroute, DoAck, DoAckFails, DoCrash, DoRedeliver, DoServerFind, DoServerInsert,
         DoServerFails, DoAdminWrite, SameBooks, NoNewPayer;
  }

  lemma LateCalls(s: State, e: Event)
    requires e.Recover? || e.Publish? || e.PublishFails?
    ensures CallsEvolve(s.creates, Step(s, e).creates) && |Step(s, e).creates| == |s.creates|
  {
    hide FindKey, DoStartCreate, DoCheckKey, DoPrecheck, DoCreateTx, DoCreateTxFails, DoStartCancel, DoCancelGuard,
         DoCancelLoad, DoCancelFails, DoCancelCommit, DoDeliver, DoWorkerBegin, DoWorkerCommit, DoWorkerFails,
         DoStartAuthorize, DoAuthorizeFails, DoAuthorizeReturns, DoPaymentWrite, DoReroute, DoAck, DoAckFails,
         DoCrash, DoRedeliver, DoServerFind, DoServerInsert, DoServerFails, DoAdminWrite, SameBooks, NoNewPayer;
  }

  lemma OtherCalls(s: State, e: Event)
    requires !CallerEvent(e)
    ensures Step(s, e).creates == s.creates
  {
    hide DoStartCancel, DoCancelGuard, DoCancelLoad, DoCancelFails, DoCancelCommit, DoDeliver, DoWorkerBegin,
         DoWorkerCommit, DoWorkerFails, DoStartAuthorize, DoAuthorizeFails, DoAuthorizeReturns, DoPaymentWrite,
         DoReroute, DoAck, DoAckFails, DoCrash, DoRedeliver, DoServerFind, DoServerInsert, DoServerFails,
         DoAdminWrite, SameBooks;
  }

  lemma StepQuantities(s: State, e: Event)
    requires Inv(s) && QuantitiesOk(s.creates, s.orders)
    ensures QuantitiesOk(Step(s, e).creates, Step(s, e).orders)
  {
    hide Inv, ValidQuantities;
    var t := Step(s, e);
    StepCalls(s, e);
    StepEvolves(s, e);
    forall o | 0 <= o < |t.orders| ensures ValidQuantities(ItemsOf(t.orders[o].lines)) {
      if o < |s.orders| {
        assert SameIdentity(s.orders[o], t.orders[o]);
      } else {
        NewOrderItems(s, e, o);
      }
    }
    if e.StartCreate? {
      assert t.creates[|s.creates|].phase.Thrown? || ValidQuantities(t.creates[|s.creates|].items);
    }
  }

  /** A new order holds the items of a call that has not thrown. */
  lemma NewOrderItems(s: State, e: Event, o: nat)
    requires |s.orders| <= o < |Step(s, e).orders|
    ensures e.CreateTx? && e.c < |s.creates| && s.creates[e.c].phase.Prechecked? && o == |s.orders|
    ensures ItemsOf(Step(s, e).orders[o].lines) == s.creates[e.c].items
  {
    if LeavesBooks(e) {
      BooksUntouched(s, e);
    } else if e.CreateTx? {
      PricedLinesItems(s.creates[e.c].items, LockedRows(s.products, ProductIds(s.creates[e.c].items)));
    }
  }

  lemma {:induction false} OverrunSign(overruns: seq<Overrun>, orders: seq<Order>, p: ProductId)
    requires OverrunsInRange(overruns, orders)
    requires forall o :: 0 <= o < |orders| ==> ValidQuantities(ItemsOf(orders[o].lines))
    ensures Overrun(overruns, orders, p) >= 0
    ensures Overrun(overruns, orders, p) == 0 <==>
            forall i :: 0 <= i < |overruns| ==> !Mentions(ItemsOf(orders[overruns[i].order].lines), p)
  {
    if overruns != [] {
      var front, last := overruns[..|overruns| - 1], overruns[|overruns| - 1];
      OverrunSign(front, orders, p);
      QuantitySign(ItemsOf(orders[last.order].lines), p);
      hide Mentions, ValidQuantities;
      assert forall i :: 0 <= i < |front| ==> front[i] == overruns[i];
    }
  }

  lemma {:induction false} RunQuantities(s: State, es: seq<Event>)
    requires Inv(s) && QuantitiesOk(s.creates, s.orders)
    ensures QuantitiesOk(Run(s, es).creates, Run(s, es).orders)
    decreases |es|
  {
    if es != [] {
      StepQuantities(s, es[0]);
      StepKeepsInv(s, es[0]);
      RunQuantities(Step(s, es[0]), es[1..]);
    }
  }

  /** Stock in hand plus stock in live orders is conserved exactly when no unguarded write landed
      on a cancelled order that holds the product; otherwise it is too large. */
  lemma ConservationIff(s0: State, es: seq<Event>, p: ProductId)
    requires Initial(s0) && p in s0.products && !s0.products[p].deleted
    requires p !in Run(s0, es).touched
    ensures var t := Run(s0, es);
            && p in t.products && OverrunsInRange(t.overruns, t.orders)
            && t.products[p].stock + Held(t.orders, p) >= s0.products[p].stock
            && (t.products[p].stock + Held(t.orders, p) == s0.products[p].stock
                <==> forall i :: 0 <= i < |t.overruns| ==> !Mentions(ItemsOf(t.orders[t.overruns[i].order].lines), p))
  {
    ExactLedger(s0, es, p);
    InitialInv(s0);
    hide Inv;
    RunQuantities(s0, es);
    OverrunSign(Run(s0, es).overruns, Run(s0, es).orders, p);
  }

  // ---- Stock never negative

  /** Create requests name each product once, and administrators write no negative stock. */
  predicate OrderlyEvent(e: Event) {
    && (e.StartCreate? ==> DistinctProducts(e.items))
    && (e.AdminWrite? ==> e.row.stock >= 0)
  }

  predicate CallsDistinct(creates: seq<CreateCall>) {
    forall c :: 0 <= c < |creates| ==> DistinctProducts(creates[c].items)
  }

  lemma StepDistinct(s: State, e: Event)
    requires CallsDistinct(s.creates) && OrderlyEvent(e)
    ensures CallsDistinct(Step(s, e).creates)
  {
    hide DistinctProducts;
    StepCalls(s, e);
  }

  lemma CreateTxNonNegative(s: State, c: nat)
    requires CallsDistinct(s.creates) && NonNegative(s.products)
    ensures NonNegative(DoCreateTx(s, c).products)
  {
    if DoCreateTx(s, c).products != s.products {
      DistinctNeverOverdraws(s.products, s.creates[c].items);
    }
  }

  lemma CancelCommitNonNegative(s: State, k: nat, keep: bool)
    requires Inv(s) && QuantitiesOk(s.creates, s.orders) && NonNegative(s.products)
    ensures NonNegative(DoCancelCommit(s, k, keep).products)
  {
    hide Inv, NonNegative;
    if DoCancelCommit(s, k, keep) != s {
      CancelSnapshot(s, k);
      GivenBackNonNegative(s.products, ItemsOf(s.cancels[k].phase.snapshot.lines));
    }
  }

  lemma StepNonNegative(s: State, e: Event)
    requires Inv(s) && QuantitiesOk(s.creates, s.orders) && CallsDistinct(s.creates)
    requires NonNegative(s.products) && OrderlyEvent(e)
    ensures NonNegative(Step(s, e).products)
  {
    hide Inv, NoNewPayer, DoCreateTx, DoCancelCommit, DoStartCreate, DoCheckKey, DoPrecheck, DoCreateTxFails,
         DoRecover, DoPublish, DoPublishFails, DoStartCancel, DoCancelGuard, DoCancelLoad, DoCancelFails, DoDeliver,
         DoWorkerBegin, DoWorkerFails, DoStartAuthorize, DoAuthorizeFails, DoAuthorizeReturns, DoReroute, DoAck,
         DoAckFails, DoCrash, DoRedeliver, DoServerFind, DoServerInsert, DoServerFails;
    if LeavesBooks(e) {
      BooksUntouched(s, e);
    } else {
      match e
      case CreateTx(c) =>
        CreateTxNonNegative(s, c);
      case CancelCommit(k, keep) =>
        CancelCommitNonNegative(s, k, keep);
      case WorkerCommit(d) =>
      case PaymentWrite(d) =>
      case AdminWrite(q, row) =>
    }
  }

  lemma {:induction false} RunNonNegative(s: State, es: seq<Event>)
    requires Inv(s) && QuantitiesOk(s.creates, s.orders) && CallsDistinct(s.creates) && NonNegative(s.products)
    requires forall i :: 0 <= i < |es| ==> OrderlyEvent(es[i])
    ensures NonNegative(Run(s, es).products)
    decreases |es|
  {
    hide Inv, QuantitiesOk, CallsDistinct, NonNegative, OrderlyEvent;
    if es != [] {
      assert OrderlyEvent(es[0]);
      StepNonNegative(s, es[0]);
      StepDistinct(s, es[0]);
      StepQuantities(s, es[0]);
      StepKeepsInv(s, es[0]);
      RunNonNegative(Step(s, es[0]), es[1..]);
    }
  }

  /** In every run of orderly requests all stocks stay at or above zero. */
  lemma StockNeverNegative(s0: State, es: seq<Event>)
    requires Initial(s0) && NonNegative(s0.products)
    requires forall i :: 0 <= i < |es| ==> OrderlyEvent(es[i])
    ensures NonNegative(Run(s0, es).products)
  {
    InitialInv(s0);
    RunNonNegative(s0, es);
  }
}
