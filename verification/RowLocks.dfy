/** Stock transactions interleaved one row lock at a time.

    Order and cancellation transactions lock product rows one by one, work on in-memory
    copies, save the copies one by one as uncommitted row versions, and then commit or roll
    back.  Whatever the interleaving, the outcome is that of running the transactions whole,
    one after another, in the order in which they finish. */
module RowLocks {
  import opened Common
  import opened Stock

  datatype Kind = Order | Cancellation

  datatype Phase = Locking | Adjusted | Refused(error: StockError) | Over(outcome: Option<StockError>) | Aborted

  /** `left` are the ids still to be visited by the locking SELECT, `local` the entities it has
      returned, `written` the versions that `save` has stored but not yet committed. */
  datatype Tx = Tx(kind: Kind, items: seq<Item>, left: set<ProductId>, local: Table, written: Table, phase: Phase) {
    predicate Active() { phase.Locking? || phase.Adjusted? || phase.Refused? }
    function Ids(): set<ProductId> { ProductIds(items) }
  }

  /** What the history keeps of a transaction that ran to its end, or of an administrator's edit. */
  datatype Entry =
    | Finished(tx: nat, kind: Kind, items: seq<Item>, outcome: Option<StockError>)
    | Edited(product: ProductId, row: Row)

  datatype State = State(products: Table, txs: seq<Tx>, log: seq<Entry>)

  datatype Event =
    | Begin(kind: Kind, items: seq<Item>)
    | Lock(t: nat, product: ProductId)
    | Adjust(t: nat)
    | Save(t: nat, product: ProductId)
    | Commit(t: nat)
    | RollBack(t: nat)
    | Abort(t: nat)
    | Edit(product: ProductId, row: Row)

  predicate HeldByOther(s: State, t: nat, p: ProductId) {
    exists u :: 0 <= u < |s.txs| && u != t && s.txs[u].Active() && p in s.txs[u].local
  }

  predicate Held(s: State, p: ProductId) {
    exists u :: 0 <= u < |s.txs| && s.txs[u].Active() && p in s.txs[u].local
  }

  predicate Live(table: Table, p: ProductId) {
    p in table && !table[p].deleted
  }

  /** What `decrementStock` or `restoreStock` makes of the entities. */
  function AdjustedRow(kind: Kind, items: seq<Item>, p: ProductId, row: Row): Row {
    if kind == Order then row.(stock := row.stock - Quantity(items, p))
    else row.(stock := row.stock + Quantity(items, p))
  }

  function AdjustedRows(kind: Kind, items: seq<Item>, rows: Table): Table {
    map p | p in rows :: AdjustedRow(kind, items, p, rows[p])
  }

  function Verdict(kind: Kind, items: seq<Item>, rows: Table): Option<StockError> {
    if kind == Order then FirstRejection(items, rows) else None
  }

  function SetTx(s: State, t: nat, tx: Tx): State
    requires t < |s.txs|
  {
    s.(txs := s.txs[t := tx])
  }

  predicate In(s: State, t: nat, phase: Phase) {
    t < |s.txs| && s.txs[t].phase == phase
  }

  /** Locking waits while another transaction holds the row, then reads its latest committed
      version; a row that is missing or soft-deleted by then is not returned. */
  function DoLock(s: State, t: nat, p: ProductId): State {
    if !In(s, t, Locking) || p !in s.txs[t].left || HeldByOther(s, t, p) then s
    else
      var tx := s.txs[t];
      var visited := tx.(left := tx.left - {p});
      SetTx(s, t, if Live(s.products, p) then visited.(local := tx.local[p := s.products[p]]) else visited)
  }

  function DoAdjust(s: State, t: nat): State {
    if !In(s, t, Locking) || s.txs[t].left != {} then s
    else
      var tx := s.txs[t];
      match Verdict(tx.kind, tx.items, tx.local)
      case Some(error) => SetTx(s, t, tx.(phase := Refused(error)))
      case None => SetTx(s, t, tx.(phase := Adjusted, local := AdjustedRows(tx.kind, tx.items, tx.local)))
  }

  function DoSave(s: State, t: nat, p: ProductId): State {
    if !In(s, t, Adjusted) || p !in s.txs[t].local then s
    else
      var tx := s.txs[t];
      SetTx(s, t, tx.(written := tx.written[p := tx.local[p]]))
  }

  function DoCommit(s: State, t: nat): State {
    if !In(s, t, Adjusted) || s.txs[t].written.Keys != s.txs[t].local.Keys then s
    else
      var tx := s.txs[t];
      SetTx(s, t, tx.(phase := Over(None))).(
        products := s.products + tx.written,
        log := s.log + [Finished(t, tx.kind, tx.items, None)])
  }

  function DoRollBack(s: State, t: nat): State {
    if !(t < |s.txs| && s.txs[t].phase.Refused?) then s
    else
      var tx := s.txs[t];
      SetTx(s, t, tx.(phase := Over(Some(tx.phase.error)))).(
        log := s.log + [Finished(t, tx.kind, tx.items, Some(tx.phase.error))])
  }

  /** Time-out, lost connection, or a failure later in the same transaction. */
  function DoAbort(s: State, t: nat): State {
    if !(t < |s.txs| && s.txs[t].Active()) then s else SetTx(s, t, s.txs[t].(phase := Aborted))
  }

  /** An administrator edits or soft-deletes a live product, which needs its row lock too. */
  function DoEdit(s: State, p: ProductId, row: Row): State {
    if !Live(s.products, p) || Held(s, p) then s
    else s.(products := s.products[p := row], log := s.log + [Edited(p, row)])
  }

  function Step(s: State, e: Event): State {
    match e
    case Begin(kind, items) => s.(txs := s.txs + [Tx(kind, items, ProductIds(items), map[], map[], Locking)])
    case Lock(t, p) => DoLock(s, t, p)
    case Adjust(t) => DoAdjust(s, t)
    case Save(t, p) => DoSave(s, t, p)
    case Commit(t) => DoCommit(s, t)
    case RollBack(t) => DoRollBack(s, t)
    case Abort(t) => DoAbort(s, t)
    case Edit(p, row) => DoEdit(s, p, row)
  }

  function Run(s: State, es: seq<Event>): State
    decreases |es|
  {
    if es == [] then s else Run(Step(s, es[0]), es[1..])
  }

  // ---- The serial system: whole transactions, one after another

  function Effect(table: Table, entry: Entry): Table {
    match entry
    case Edited(p, row) => table[p := row]
    case Finished(_, kind, items, outcome) =>
      if outcome.Some? then table else if kind == Order then Taken(table, items) else GivenBack(table, items)
  }

  /** The entry records what running it alone on `table` gives. */
  predicate Agrees(table: Table, entry: Entry) {
    match entry
    case Edited(p, _) => Live(table, p)
    case Finished(_, kind, items, outcome) => outcome == Verdict(kind, items, LockedRows(table, ProductIds(items)))
  }

  function Replay(table: Table, log: seq<Entry>): Table {
    if log == [] then table else Effect(Replay(table, log[..|log| - 1]), log[|log| - 1])
  }

  predicate Serial(table: Table, log: seq<Entry>) {
    if log == [] then true
    else Serial(table, log[..|log| - 1]) && Agrees(Replay(table, log[..|log| - 1]), log[|log| - 1])
  }

  lemma ReplaySnoc(table: Table, log: seq<Entry>, entry: Entry)
    ensures Replay(table, log + [entry]) == Effect(Replay(table, log), entry)
    ensures Serial(table, log + [entry]) <==> Serial(table, log) && Agrees(Replay(table, log), entry)
  {
    assert (log + [entry])[..|log|] == log;
  }

  // ---- What every step keeps

  /** A transaction's copies are the committed rows, adjusted once it has adjusted them; the ids
      it visited without getting a row have no live row. */
  predicate CopiesOk(products: Table, tx: Tx) {
    && tx.left <= tx.Ids() && tx.local.Keys <= tx.Ids() && tx.left !! tx.local.Keys
    && (forall p :: p in tx.local ==> Live(products, p))
    && (forall p :: p in tx.Ids() && p !in tx.left && p !in tx.local ==> !Live(products, p))
    && (!tx.phase.Adjusted? ==> tx.written == map[])
    && (forall p :: p in tx.written ==> p in tx.local && tx.written[p] == tx.local[p])
    && forall p :: p in tx.local ==>
         tx.local[p] == if tx.phase.Adjusted? then AdjustedRow(tx.kind, tx.items, p, products[p]) else products[p]
  }

  predicate VerdictOk(products: Table, tx: Tx) {
    !tx.phase.Locking? ==>
      && tx.left == {}
      && Verdict(tx.kind, tx.items, LockedRows(products, tx.Ids()))
         == if tx.phase.Refused? then Some(tx.phase.error) else None
  }

  predicate TxsOk(s: State) {
    forall t :: 0 <= t < |s.txs| && s.txs[t].Active() ==>
      CopiesOk(s.products, s.txs[t]) && VerdictOk(s.products, s.txs[t])
  }

  predicate Exclusive(s: State) {
    forall t, u :: 0 <= t < u < |s.txs| && s.txs[t].Active() && s.txs[u].Active() ==>
      s.txs[t].local.Keys !! s.txs[u].local.Keys
  }

  predicate LogOk(s: State) {
    && (forall i :: 0 <= i < |s.log| && s.log[i].Finished? ==>
          && s.log[i].tx < |s.txs| && s.txs[s.log[i].tx].phase == Over(s.log[i].outcome)
          && s.txs[s.log[i].tx].kind == s.log[i].kind && s.txs[s.log[i].tx].items == s.log[i].items)
    && (forall i, j :: 0 <= i < j < |s.log| && s.log[i].Finished? && s.log[j].Finished? ==> s.log[i].tx != s.log[j].tx)
    && (forall t :: 0 <= t < |s.txs| && s.txs[t].phase.Over? ==>
          exists i :: 0 <= i < |s.log| && s.log[i].Finished? && s.log[i].tx == t)
  }

  predicate Inv(table: Table, s: State) {
    && TxsOk(s) && Exclusive(s) && LogOk(s)
    && s.products == Replay(table, s.log) && Serial(table, s.log)
  }

  /** While a transaction is active, nobody else changes a row it locked or one it found missing. */
  predicate Undisturbed(products: Table, later: Table, tx: Tx) {
    && (forall p :: p in tx.Ids() && p !in tx.left ==> (Live(later, p) <==> Live(products, p)))
    && (forall p :: p in tx.local && Live(products, p) ==> p in later && later[p] == products[p])
  }

  lemma UndisturbedKeeps(products: Table, later: Table, tx: Tx)
    requires CopiesOk(products, tx) && VerdictOk(products, tx) && Undisturbed(products, later, tx)
    ensures CopiesOk(later, tx) && VerdictOk(later, tx)
  {
    hide Verdict;
    if tx.left == {} {
      assert LockedRows(later, tx.Ids()) == LockedRows(products, tx.Ids());
    }
  }

  /** Once every id has been visited, the entities are what a SELECT of the committed rows returns. */
  lemma CopiesAreLockedRows(products: Table, tx: Tx)
    requires CopiesOk(products, tx) && tx.left == {} && !tx.phase.Adjusted?
    ensures tx.local == LockedRows(products, tx.Ids())
  {
  }

  lemma SetTxKeeps(table: Table, s: State, t: nat, tx: Tx)
    requires Inv(table, s) && t < |s.txs|
    requires s.txs[t].Active() && (tx.Active() || tx.phase.Aborted?)
    requires tx.kind == s.txs[t].kind && tx.items == s.txs[t].items
    requires tx.Active() ==> CopiesOk(s.products, tx) && VerdictOk(s.products, tx)
    requires tx.Active() ==> forall p :: p in tx.local ==> p in s.txs[t].local || !HeldByOther(s, t, p)
    ensures Inv(table, SetTx(s, t, tx))
  {
    hide CopiesOk, VerdictOk, Serial, Replay;
    var s' := SetTx(s, t, tx);
    assert Exclusive(s') by {
      forall u, v | 0 <= u < v < |s'.txs| && s'.txs[u].Active() && s'.txs[v].Active()
        ensures s'.txs[u].local.Keys !! s'.txs[v].local.Keys
      {
        assert forall w, p :: 0 <= w < |s.txs| && w != t && s.txs[w].Active() && p in s.txs[w].local ==>
          HeldByOther(s, t, p);
      }
    }
    assert LogOk(s') by {
      forall w | 0 <= w < |s'.txs| && s'.txs[w].phase.Over?
        ensures exists i :: 0 <= i < |s'.log| && s'.log[i].Finished? && s'.log[i].tx == w
      {
        assert s.txs[w].phase.Over?;
      }
    }
  }

  lemma LockKeeps(table: Table, s: State, t: nat, p: ProductId)
    requires Inv(table, s)
    ensures Inv(table, DoLock(s, t, p))
  {
    hide Serial, Replay, Exclusive, LogOk;
    if In(s, t, Locking) && p in s.txs[t].left && !HeldByOther(s, t, p) {
      SetTxKeeps(table, s, t, DoLock(s, t, p).txs[t]);
    }
  }

  lemma AdjustKeeps(table: Table, s: State, t: nat)
    requires Inv(table, s)
    ensures Inv(table, DoAdjust(s, t))
  {
    hide Serial, Replay, Exclusive, LogOk, Verdict;
    if In(s, t, Locking) && s.txs[t].left == {} {
      CopiesAreLockedRows(s.products, s.txs[t]);
      SetTxKeeps(table, s, t, DoAdjust(s, t).txs[t]);
    }
  }

  lemma SaveKeeps(table: Table, s: State, t: nat, p: ProductId)
    requires Inv(table, s)
    ensures Inv(table, DoSave(s, t, p))
  {
    hide Serial, Replay, Exclusive, LogOk, Verdict;
    if In(s, t, Adjusted) && p in s.txs[t].local {
      SetTxKeeps(table, s, t, DoSave(s, t, p).txs[t]);
    }
  }

  /** Saving the locked copies is the whole effect of the transaction. */
  lemma CommitIsEffect(table: Table, s: State, t: nat)
    requires Inv(table, s) && In(s, t, Adjusted) && s.txs[t].written.Keys == s.txs[t].local.Keys
    ensures var tx := s.txs[t];
            s.products + tx.written == Effect(s.products, Finished(t, tx.kind, tx.items, None))
  {
    hide Serial, Replay, Exclusive, LogOk, Verdict, Taken, GivenBack;
    var tx := s.txs[t];
    SavingLockedRows(s.products, tx.items);
    assert tx.written.Keys == LockedRows(s.products, tx.Ids()).Keys;
  }

  lemma FinishLog(s: State, t: nat, entry: Entry, products: Table, tx: Tx)
    requires LogOk(s) && t < |s.txs| && s.txs[t].Active()
    requires tx.phase.Over? && tx.kind == s.txs[t].kind && tx.items == s.txs[t].items
    requires entry == Finished(t, tx.kind, tx.items, tx.phase.outcome)
    ensures LogOk(State(products, s.txs[t := tx], s.log + [entry]))
  {
    var s' := State(products, s.txs[t := tx], s.log + [entry]);
    forall u | 0 <= u < |s'.txs| && s'.txs[u].phase.Over?
      ensures exists i :: 0 <= i < |s'.log| && s'.log[i].Finished? && s'.log[i].tx == u
    {
      if u == t {
        assert s'.log[|s.log|].tx == t;
      } else {
        var i :| 0 <= i < |s.log| && s.log[i].Finished? && s.log[i].tx == u;
        assert s'.log[i] == s.log[i];
      }
    }
  }

  lemma CommitKeeps(table: Table, s: State, t: nat)
    requires Inv(table, s)
    ensures Inv(table, DoCommit(s, t))
  {
    hide Serial, Replay, Verdict, LockedRows, Effect, AdjustedRow;
    var s' := DoCommit(s, t);
    if s' != s {
      var tx := s.txs[t];
      CommitIsEffect(table, s, t);
      ReplaySnoc(table, s.log, Finished(t, tx.kind, tx.items, None));
      FinishLog(s, t, Finished(t, tx.kind, tx.items, None), s'.products, s'.txs[t]);
      forall u | 0 <= u < |s'.txs| && s'.txs[u].Active()
        ensures CopiesOk(s'.products, s'.txs[u]) && VerdictOk(s'.products, s'.txs[u])
      {
        CommitUndisturbs(s, t, u);
        UndisturbedKeeps(s.products, s'.products, s.txs[u]);
      }
    }
  }

  lemma CommitUndisturbs(s: State, t: nat, u: nat)
    requires TxsOk(s) && Exclusive(s) && In(s, t, Adjusted) && s.txs[t].written.Keys == s.txs[t].local.Keys
    requires u < |s.txs| && u != t && s.txs[u].Active()
    ensures Undisturbed(s.products, s.products + s.txs[t].written, s.txs[u])
  {
    hide VerdictOk;
    assert s.txs[t].local.Keys !! s.txs[u].local.Keys;
  }

  lemma RollBackKeeps(table: Table, s: State, t: nat)
    requires Inv(table, s)
    ensures Inv(table, DoRollBack(s, t))
  {
    hide Serial, Replay, Verdict, LockedRows, CopiesOk;
    var s' := DoRollBack(s, t);
    if s' != s {
      var tx := s.txs[t];
      ReplaySnoc(table, s.log, Finished(t, tx.kind, tx.items, Some(tx.phase.error)));
      FinishLog(s, t, Finished(t, tx.kind, tx.items, Some(tx.phase.error)), s'.products, s'.txs[t]);
    }
  }

  lemma EditKeeps(table: Table, s: State, p: ProductId, row: Row)
    requires Inv(table, s)
    ensures Inv(table, DoEdit(s, p, row))
  {
    hide Serial, Replay, Verdict, LockedRows, CopiesOk, VerdictOk;
    var s' := DoEdit(s, p, row);
    if s' != s {
      ReplaySnoc(table, s.log, Edited(p, row));
      forall u | 0 <= u < |s'.txs| && s'.txs[u].Active()
        ensures CopiesOk(s'.products, s'.txs[u]) && VerdictOk(s'.products, s'.txs[u])
      {
        EditUndisturbs(s, p, row, u);
        UndisturbedKeeps(s.products, s'.products, s.txs[u]);
      }
      assert LogOk(s') by {
        forall u | 0 <= u < |s'.txs| && s'.txs[u].phase.Over?
          ensures exists i :: 0 <= i < |s'.log| && s'.log[i].Finished? && s'.log[i].tx == u
        {
          var i :| 0 <= i < |s.log| && s.log[i].Finished? && s.log[i].tx == u;
          assert s'.log[i] == s.log[i];
        }
      }
    }
  }

  /** A row that a transaction has visited is either locked by it or has no live version. */
  lemma EditUndisturbs(s: State, p: ProductId, row: Row, u: nat)
    requires TxsOk(s) && Live(s.products, p) && !Held(s, p)
    requires u < |s.txs| && s.txs[u].Active()
    ensures Undisturbed(s.products, s.products[p := row], s.txs[u])
  {
    hide VerdictOk;
  }

  lemma BeginKeeps(table: Table, s: State, kind: Kind, items: seq<Item>)
    requires Inv(table, s)
    ensures Inv(table, Step(s, Begin(kind, items)))
  {
    hide Serial, Replay;
    var s' := Step(s, Begin(kind, items));
    assert forall t :: 0 <= t < |s.txs| ==> s'.txs[t] == s.txs[t];
    assert CopiesOk(s'.products, s'.txs[|s.txs|]);
    hide CopiesOk, VerdictOk;
    assert TxsOk(s');
  }

  lemma StepKeepsInv(table: Table, s: State, e: Event)
    requires Inv(table, s)
    ensures Inv(table, Step(s, e))
  {
    hide Inv;
    match e
    case Begin(kind, items) => BeginKeeps(table, s, kind, items);
    case Lock(t, p) => LockKeeps(table, s, t, p);
    case Adjust(t) => AdjustKeeps(table, s, t);
    case Save(t, p) => SaveKeeps(table, s, t, p);
    case Commit(t) => CommitKeeps(table, s, t);
    case RollBack(t) => RollBackKeeps(table, s, t);
    case Abort(t) => AbortKeeps(table, s, t);
    case Edit(p, row) => EditKeeps(table, s, p, row);
  }

  lemma AbortKeeps(table: Table, s: State, t: nat)
    requires Inv(table, s)
    ensures Inv(table, DoAbort(s, t))
  {
    if t < |s.txs| && s.txs[t].Active() {
      SetTxKeeps(table, s, t, s.txs[t].(phase := Aborted));
    }
  }

  lemma {:induction false} RunKeepsInv(table: Table, s: State, es: seq<Event>)
    requires Inv(table, s)
    ensures Inv(table, Run(s, es))
    decreases |es|
  {
    hide Inv;
    if es != [] {
      StepKeepsInv(table, s, es[0]);
      RunKeepsInv(table, Step(s, es[0]), es[1..]);
    }
  }

  /** Serializability: after any interleaving, the committed rows are those that the finished
      transactions leave when they run whole in the order they finished, each of them was accepted
      or refused as that serial run accepts or refuses it, and each is in that run exactly once. */
  lemma Serializable(table: Table, es: seq<Event>)
    ensures var s := Run(State(table, [], []), es);
            s.products == Replay(table, s.log) && Serial(table, s.log) && LogOk(s)
  {
    RunKeepsInv(table, State(table, [], []), es);
  }

  /** While a transaction holds a row no other one does, and until it adjusts its copy that copy is
      the committed row. */
  lemma LockedCopyIsCommitted(table: Table, es: seq<Event>, t: nat, p: ProductId)
    requires t < |Run(State(table, [], []), es).txs|
    requires var tx := Run(State(table, [], []), es).txs[t]; tx.Active() && p in tx.local
    ensures var s := Run(State(table, [], []), es);
            && p in s.products && !HeldByOther(s, t, p)
            && s.txs[t].local[p] == if s.txs[t].phase.Adjusted?
                                    then AdjustedRow(s.txs[t].kind, s.txs[t].items, p, s.products[p])
                                    else s.products[p]
  {
    hide Run;
    RunKeepsInv(table, State(table, [], []), es);
  }

  // ---- What the serial run does, row by row

  /** Entry i of a log: an order is accepted exactly when every line was live, active and in stock at its
      turn, and then each product loses what the order asks of it; a refused one changes nothing; a
      cancellation is always accepted and gives back to the rows that are not deleted. */
  predicate EntryIs(table: Table, log: seq<Entry>, i: nat)
    requires i < |log| && log[i].Finished?
  {
    var before, later, items := Replay(table, log[..i]), Replay(table, log[..i + 1]), log[i].items;
    && later.Keys == before.Keys
    && (log[i].outcome.None? <==> log[i].kind == Cancellation || InStock(items, before))
    && forall p :: p in before ==>
         later[p].stock == before[p].stock
           + (if log[i].outcome.Some? || before[p].deleted then 0
              else if log[i].kind == Order then -Quantity(items, p) else Quantity(items, p))
         && later[p] == before[p].(stock := later[p].stock)
  }

  lemma EffectRows(before: Table, entry: Entry)
    requires Agrees(before, entry) && entry.Finished?
    ensures entry.outcome.None? <==> entry.kind == Cancellation || InStock(entry.items, before)
    ensures var later := Effect(before, entry);
            && later.Keys == before.Keys
            && forall p :: p in before ==>
                 later[p].stock == before[p].stock
                   + (if entry.outcome.Some? || before[p].deleted then 0
                      else if entry.kind == Order then -Quantity(entry.items, p) else Quantity(entry.items, p))
                 && later[p] == before[p].(stock := later[p].stock)
  {
    hide InStock, Quantity, FirstRejection, LockedRows;
    InStockIff(entry.items, before);
  }

  lemma {:induction false} SerialEntry(table: Table, log: seq<Entry>, i: nat)
    requires Serial(table, log) && i < |log| && log[i].Finished?
    ensures EntryIs(table, log, i)
    decreases |log|
  {
    hide Effect, Agrees, InStock, Quantity;
    var front := log[..|log| - 1];
    if i < |front| {
      assert front[..i] == log[..i] && front[..i + 1] == log[..i + 1];
      SerialEntry(table, front, i);
    } else {
      assert log[..i] == front && log[..i + 1] == log;
      EffectRows(Replay(table, front), log[i]);
    }
  }

  /** For every interleaving of row locks, the serial run that it amounts to is of that kind. */
  lemma EveryEntry(table: Table, es: seq<Event>, i: nat)
    requires i < |Run(State(table, [], []), es).log| && Run(State(table, [], []), es).log[i].Finished?
    ensures EntryIs(table, Run(State(table, [], []), es).log, i)
  {
    hide Run, Replay, Serial, LogOk, EntryIs;
    Serializable(table, es);
    SerialEntry(table, Run(State(table, [], []), es).log, i);
  }

  /** An administrator's write to a live row that no transaction holds takes effect; otherwise it waits. */
  lemma EditIff(s: State, p: ProductId, row: Row)
    ensures var free := forall u :: 0 <= u < |s.txs| && s.txs[u].Active() ==> p !in s.txs[u].local;
            Step(s, Edit(p, row)) == if p in s.products && !s.products[p].deleted && free
                                     then State(s.products[p := row], s.txs, s.log + [Edited(p, row)]) else s
  {
  }

  // ---- A transaction that nobody disturbs

  function LockEvents(t: nat, ids: seq<ProductId>): seq<Event> {
    if ids == [] then [] else [Lock(t, ids[0])] + LockEvents(t, ids[1..])
  }

  function SaveEvents(t: nat, ids: seq<ProductId>): seq<Event> {
    if ids == [] then [] else [Save(t, ids[0])] + SaveEvents(t, ids[1..])
  }

  function SetOf(ids: seq<ProductId>): set<ProductId> {
    set p | p in ids
  }

  predicate Alone(s: State, t: nat) {
    t < |s.txs| && forall u :: 0 <= u < |s.txs| && u != t ==> !s.txs[u].Active()
  }

  lemma LocksOne(s: State, t: nat, p: ProductId)
    requires Alone(s, t) && In(s, t, Locking) && p in s.txs[t].left
    ensures var tx := s.txs[t];
            DoLock(s, t, p) == SetTx(s, t, tx.(
              left := tx.left - {p},
              local := if Live(s.products, p) then tx.local[p := s.products[p]] else tx.local))
  {
  }

  lemma {:induction false} LocksAll(s: State, t: nat, ids: seq<ProductId>)
    requires Alone(s, t) && In(s, t, Locking) && NoRepeats(ids) && SetOf(ids) <= s.txs[t].left
    ensures Run(s, LockEvents(t, ids)) == SetTx(s, t, s.txs[t].(
              left := s.txs[t].left - SetOf(ids), local := s.txs[t].local + LockedRows(s.products, SetOf(ids))))
    decreases |ids|
  {
    hide LockedRows, HeldByOther, DoLock;
    var tx := s.txs[t];
    if ids == [] {
      assert SetOf(ids) == {};
      NothingLocked(s.products);
      assert tx.local + map[] == tx.local && tx.left - {} == tx.left;
      assert s.txs[t := tx] == s.txs;
    } else {
      var p, rest := ids[0], ids[1..];
      assert SetOf(ids) == {p} + SetOf(rest) && p !in SetOf(rest);
      LocksOne(s, t, p);
      var s' := DoLock(s, t, p);
      assert NoRepeats(rest);
      LocksAll(s', t, rest);
      LockedHead(s.products, p, SetOf(rest));
      assert LockEvents(t, ids)[0] == Lock(t, p) && LockEvents(t, ids)[1..] == LockEvents(t, rest);
      assert tx.left - {p} - SetOf(rest) == tx.left - SetOf(ids);
      MoreLocked(tx.local, s.products, p, SetOf(rest));
      SetTwice(s.txs, t, s'.txs[t], Run(s', LockEvents(t, rest)).txs[t]);
    }
  }

  lemma NothingLocked(products: Table)
    ensures LockedRows(products, {}) == map[]
  {
  }

  lemma LockedHead(products: Table, p: ProductId, ids: set<ProductId>)
    requires p !in ids
    ensures LockedRows(products, {p} + ids)
         == if Live(products, p) then LockedRows(products, ids)[p := products[p]] else LockedRows(products, ids)
  {
  }

  lemma MoreLocked(local: Table, products: Table, p: ProductId, ids: set<ProductId>)
    requires p !in ids
    ensures (if Live(products, p) then local[p := products[p]] else local) + LockedRows(products, ids)
         == local + LockedRows(products, {p} + ids)
  {
  }
  lemma SetTwice(txs: seq<Tx>, t: nat, x: Tx, y: Tx)
    requires t < |txs|
    ensures txs[t := x][t := y] == txs[t := y]
  {
  }

  lemma SavesOne(s: State, t: nat, p: ProductId)
    requires In(s, t, Adjusted) && p in s.txs[t].local
    ensures DoSave(s, t, p) == SetTx(s, t, s.txs[t].(written := s.txs[t].written[p := s.txs[t].local[p]]))
  {
  }

  /** The copies of the given rows. */
  function CopiesOf(local: Table, ids: seq<ProductId>): Table
    requires forall p :: p in ids ==> p in local
  {
    map p | p in ids :: local[p]
  }

  lemma MoreWritten(written: Table, local: Table, ids: seq<ProductId>)
    requires ids != [] && forall p :: p in ids ==> p in local
    ensures written[ids[0] := local[ids[0]]] + CopiesOf(local, ids[1..]) == written + CopiesOf(local, ids)
  {
    assert forall p :: p in ids <==> p == ids[0] || p in ids[1..];
  }

  lemma {:induction false} SavesAll(s: State, t: nat, ids: seq<ProductId>)
    requires In(s, t, Adjusted) && forall p :: p in ids ==> p in s.txs[t].local
    ensures Run(s, SaveEvents(t, ids)) == SetTx(s, t, s.txs[t].(
              written := s.txs[t].written + CopiesOf(s.txs[t].local, ids)))
    decreases |ids|
  {
    hide DoSave, CopiesOf;
    var tx := s.txs[t];
    if ids == [] {
      NoCopiesOf(tx.local, ids);
      assert tx.written + map[] == tx.written;
      assert s.txs[t := tx] == s.txs;
    } else {
      var p, rest := ids[0], ids[1..];
      SavesOne(s, t, p);
      var s' := DoSave(s, t, p);
      SavesAll(s', t, rest);
      MoreWritten(tx.written, tx.local, ids);
      assert SaveEvents(t, ids)[0] == Save(t, p) && SaveEvents(t, ids)[1..] == SaveEvents(t, rest);
      SetTwice(s.txs, t, s'.txs[t], Run(s', SaveEvents(t, rest)).txs[t]);
    }
  }

  lemma NoCopiesOf(local: Table, ids: seq<ProductId>)
    requires ids == []
    ensures CopiesOf(local, ids) == map[]
  {
  }

  lemma {:induction false} RunConcat(s: State, es: seq<Event>, fs: seq<Event>)
    ensures Run(s, es + fs) == Run(Run(s, es), fs)
    decreases |es|
  {
    hide Step;
    if es == [] {
      assert es + fs == fs;
    } else {
      assert (es + fs)[1..] == es[1..] + fs;
      RunConcat(Step(s, es[0]), es[1..], fs);
    }
  }

  lemma RunOne(s: State, e: Event)
    ensures Run(s, [e]) == Step(s, e)
  {
    hide Step;
    assert [e][1..] == [];
  }

  /** The transaction as its locks have been taken. */
  function Locked(kind: Kind, items: seq<Item>, products: Table): Tx {
    Tx(kind, items, {}, LockedRows(products, ProductIds(items)), map[], Locking)
  }

  lemma BegunAndLocked(s: State, kind: Kind, items: seq<Item>, ids: seq<ProductId>)
    requires (forall u :: 0 <= u < |s.txs| ==> !s.txs[u].Active()) && NoRepeats(ids) && SetOf(ids) == ProductIds(items)
    ensures Run(s, [Begin(kind, items)] + LockEvents(|s.txs|, ids))
         == s.(txs := s.txs + [Locked(kind, items, s.products)])
  {
    hide Run, LockedRows;
    var t := |s.txs|;
    RunConcat(s, [Begin(kind, items)], LockEvents(t, ids));
    RunOne(s, Begin(kind, items));
    var begun := Step(s, Begin(kind, items));
    assert Alone(begun, t) && SetOf(ids) <= begun.txs[t].left;
    LocksAll(begun, t, ids);
    assert ProductIds(items) - SetOf(ids) == {};
    assert map[] + LockedRows(s.products, SetOf(ids)) == LockedRows(s.products, SetOf(ids));
    assert begun.txs[t := Locked(kind, items, s.products)] == s.txs + [Locked(kind, items, s.products)];
  }

  /** The rows of one transaction that runs by itself. */
  predicate Changed(products: Table, later: Table, kind: Kind, items: seq<Item>) {
    && later.Keys == products.Keys
    && forall p :: p in products ==>
         later[p] == if products[p].deleted then products[p]
                     else if kind == Order then products[p].(stock := products[p].stock - Quantity(items, p))
                     else products[p].(stock := products[p].stock + Quantity(items, p))
  }

  lemma AdjustedAndSaved(s: State, kind: Kind, items: seq<Item>, saves: seq<ProductId>)
    requires kind == Cancellation || InStock(items, s.products)
    requires SetOf(saves) == LockedRows(s.products, ProductIds(items)).Keys
    ensures var t, begun := |s.txs|, s.(txs := s.txs + [Locked(kind, items, s.products)]);
            var done := Run(begun, [Adjust(t)] + SaveEvents(t, saves) + [Commit(t)]);
            && |done.txs| == t + 1 && done.txs[t].phase == Over(None)
            && done.log == s.log + [Finished(t, kind, items, None)]
            && done.products == s.products + AdjustedRows(kind, items, LockedRows(s.products, ProductIds(items)))
  {
    hide Run, LockedRows, FirstRejection, InStock, AdjustedRow, ProductIds;
    var t, begun := |s.txs|, s.(txs := s.txs + [Locked(kind, items, s.products)]);
    var rows := LockedRows(s.products, ProductIds(items));
    InStockIff(items, s.products);
    RunConcat(begun, [Adjust(t)] + SaveEvents(t, saves), [Commit(t)]);
    RunConcat(begun, [Adjust(t)], SaveEvents(t, saves));
    RunOne(begun, Adjust(t));
    var adjusted := Step(begun, Adjust(t));
    assert adjusted.txs[t].local == AdjustedRows(kind, items, rows) && adjusted.txs[t].written == map[];
    SavesAll(adjusted, t, saves);
    var saved := Run(adjusted, SaveEvents(t, saves));
    assert saved.txs[t].written == AdjustedRows(kind, items, rows);
    RunOne(saved, Commit(t));
  }

  lemma RowsChanged(products: Table, kind: Kind, items: seq<Item>)
    ensures var rows := LockedRows(products, ProductIds(items));
            Changed(products, products + AdjustedRows(kind, items, rows), kind, items)
  {
    forall p | p in products && p !in ProductIds(items) ensures Quantity(items, p) == 0 {
      assert !Mentions(items, p);
      QuantityUnmentioned(items, p);
    }
  }

  /** Progress: with nobody else at work, an order whose lines are in stock, and every cancellation, takes its
      locks, adjusts, saves and commits, and has exactly its effect. */
  lemma LoneTransaction(s: State, kind: Kind, items: seq<Item>, ids: seq<ProductId>, saves: seq<ProductId>)
    requires (forall u :: 0 <= u < |s.txs| ==> !s.txs[u].Active()) && NoRepeats(ids) && SetOf(ids) == ProductIds(items)
    requires SetOf(saves) == set p | p in ids && Live(s.products, p)
    requires kind == Cancellation || InStock(items, s.products)
    ensures var t := |s.txs|;
            var es := [Begin(kind, items)] + LockEvents(t, ids) + ([Adjust(t)] + SaveEvents(t, saves) + [Commit(t)]);
            && Run(s, es).log == s.log + [Finished(t, kind, items, None)]
            && Changed(s.products, Run(s, es).products, kind, items)
  {
    hide Run, InStock, Changed, AdjustedRows;
    var t := |s.txs|;
    BegunAndLocked(s, kind, items, ids);
    RunConcat(s, [Begin(kind, items)] + LockEvents(t, ids), [Adjust(t)] + SaveEvents(t, saves) + [Commit(t)]);
    LiveAreLocked(s.products, items, ids);
    AdjustedAndSaved(s, kind, items, saves);
    RowsChanged(s.products, kind, items);
  }

  lemma LiveAreLocked(products: Table, items: seq<Item>, ids: seq<ProductId>)
    requires SetOf(ids) == ProductIds(items)
    ensures LockedRows(products, ProductIds(items)).Keys == set p | p in ids && Live(products, p)
  {
    assert forall p :: p in ids <==> p in SetOf(ids);
  }

  /** ... and an order with a line that is not in stock is refused and changes nothing. */
  lemma LoneRefusal(s: State, items: seq<Item>, ids: seq<ProductId>)
    requires (forall u :: 0 <= u < |s.txs| ==> !s.txs[u].Active()) && NoRepeats(ids) && SetOf(ids) == ProductIds(items)
    requires !InStock(items, s.products)
    ensures var t := |s.txs|;
            var done := Run(s, [Begin(Order, items)] + LockEvents(t, ids) + [Adjust(t), RollBack(t)]);
            && done.products == s.products && |done.log| == |s.log| + 1 && s.log <= done.log
            && done.log[|s.log|].Finished? && done.log[|s.log|].items == items && done.log[|s.log|].outcome.Some?
  {
    hide Run, LockedRows, FirstRejection, InStock, ProductIds;
    var t := |s.txs|;
    InStockIff(items, s.products);
    BegunAndLocked(s, Order, items, ids);
    RunConcat(s, [Begin(Order, items)] + LockEvents(t, ids), [Adjust(t), RollBack(t)]);
    var begun := s.(txs := s.txs + [Locked(Order, items, s.products)]);
    assert [Adjust(t), RollBack(t)] == [Adjust(t)] + [RollBack(t)];
    RunConcat(begun, [Adjust(t)], [RollBack(t)]);
    RunOne(begun, Adjust(t));
    RunOne(Step(begun, Adjust(t)), RollBack(t));
  }

  // ---- A consequence for the stock

  predicate OrderlyItems(kind: Kind, items: seq<Item>) {
    ValidQuantities(items) && (kind == Order ==> DistinctProducts(items))
  }

  predicate Orderly(entry: Entry) {
    match entry
    case Edited(_, row) => row.stock >= 0
    case Finished(_, kind, items, _) => OrderlyItems(kind, items)
  }

  lemma {:induction false} SerialNeverOverdraws(table: Table, log: seq<Entry>)
    requires NonNegative(table) && Serial(table, log)
    requires forall i :: 0 <= i < |log| ==> Orderly(log[i])
    ensures NonNegative(Replay(table, log))
  {
    hide Taken, GivenBack, FirstRejection;
    if log != [] {
      var front, last := log[..|log| - 1], log[|log| - 1];
      SerialNeverOverdraws(table, front);
      var before := Replay(table, front);
      if last.Finished? && last.outcome.None? {
        if last.kind == Order {
          DistinctNeverOverdraws(before, last.items);
        } else {
          GivenBackNonNegative(before, last.items);
        }
      }
    }
  }

  /** What a caller can see to: orders list distinct products in valid quantities, and administrators
      write no negative stock. */
  predicate OrderlyEvent(e: Event) {
    match e
    case Begin(kind, items) => OrderlyItems(kind, items)
    case Edit(_, row) => row.stock >= 0
    case _ => true
  }

  predicate OrderlyState(s: State) {
    && (forall t :: 0 <= t < |s.txs| ==> OrderlyItems(s.txs[t].kind, s.txs[t].items))
    && (forall i :: 0 <= i < |s.log| ==> Orderly(s.log[i]))
  }

  lemma StepKeepsOrderly(s: State, e: Event)
    requires OrderlyState(s) && OrderlyEvent(e)
    ensures OrderlyState(Step(s, e))
  {
    hide OrderlyItems, Verdict, AdjustedRows, HeldByOther, Held;
  }

  lemma {:induction false} RunKeepsOrderly(s: State, es: seq<Event>)
    requires OrderlyState(s) && forall i :: 0 <= i < |es| ==> OrderlyEvent(es[i])
    ensures OrderlyState(Run(s, es))
    decreases |es|
  {
    hide OrderlyState, OrderlyEvent, Step;
    if es != [] {
      StepKeepsOrderly(s, es[0]);
      RunKeepsOrderly(Step(s, es[0]), es[1..]);
    }
  }

  /** With pairwise distinct products per order, no interleaving of row locks oversells. */
  lemma NeverOversold(table: Table, es: seq<Event>)
    requires NonNegative(table) && forall i :: 0 <= i < |es| ==> OrderlyEvent(es[i])
    ensures NonNegative(Run(State(table, [], []), es).products)
  {
    hide Run, NonNegative, Orderly, OrderlyEvent;
    RunKeepsOrderly(State(table, [], []), es);
    Serializable(table, es);
    SerialNeverOverdraws(table, Run(State(table, [], []), es).log);
  }
}
