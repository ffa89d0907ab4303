/** Overlapping image calls, one database write at a time.  What a call saves comes from rows that it
    read earlier, so a write may carry any values; a column that a save leaves alone has its current one. */
module ImageWrites {
  import opened Common
  import opened Images

  /** The tables, and the removals that have detached their file and not yet cleared the main image; one
      that crashes in between never does. */
  datatype Moment = Moment(now: State, clearing: multiset<(ProductId, FileId)>)

  datatype Write =
    | InsertProduct(product: ProductId)
    | SoftDelete(product: ProductId)
    // `setMainImage` and `update` save a whole product
    | SaveProduct(product: ProductId, row: ProductRow)
    | InsertFile(user: UserId, attached: Option<ProductId>)
    // `addImage`, `completeUpload` and `prepareFileForEntity` save a whole file record
    | SaveFile(file: FileId, entity: Option<ProductId>, status: FileStatus)
    // the two writes of `removeImage`
    | Detach(product: ProductId, file: FileId, status: FileStatus)
    | ClearMain(product: ProductId, file: FileId)

  function WithProduct(s: Moment, p: ProductId, row: ProductRow): Moment {
    s.(now := s.now.(products := s.now.products[p := row]))
  }

  function WithFile(s: Moment, f: FileId, entity: Option<ProductId>, status: FileStatus): Moment {
    if f < |s.now.files| then
      s.(now := s.now.(files := s.now.files[f := s.now.files[f].(entity := entity, status := status)]))
    else s
  }

  function Apply(s: Moment, w: Write): Moment {
    match w
    case InsertProduct(p) => if p in s.now.products then s else WithProduct(s, p, ProductRow(false, None))
    case SoftDelete(p) =>
      if p in s.now.products then WithProduct(s, p, s.now.products[p].(deleted := true)) else s
    case SaveProduct(p, row) => if p in s.now.products then WithProduct(s, p, row) else s
    case InsertFile(user, entity) =>
      s.(now := s.now.(files := s.now.files + [FileRecord(user, entity, PENDING)]))
    case SaveFile(f, entity, status) => WithFile(s, f, entity, status)
    case Detach(p, f, status) => WithFile(s, f, None, status).(clearing := s.clearing + multiset{(p, f)})
    case ClearMain(p, f) =>
      var rest := s.(clearing := s.clearing - multiset{(p, f)});
      if p in s.now.products && s.now.products[p].main == Some(f)
      then WithProduct(rest, p, s.now.products[p].(main := None))
      else rest
  }

  function Replay(s: Moment, ws: seq<Write>): Moment
    decreases |ws|
  {
    if ws == [] then s else Replay(Apply(s, ws[0]), ws[1..])
  }

  // ---- What every write must find

  predicate IsMain(s: Moment, p: ProductId, f: FileId) {
    p in s.now.products && s.now.products[p].main == Some(f)
  }

  /** File `f` may be the main image of `p`: it is READY and attached, or its removal is about to
      clear it. */
  predicate Backed(s: Moment, p: ProductId, f: FileId) {
    (AttachedTo(s.now, p, f) && s.now.files[f].status == READY) || (p, f) in s.clearing
  }

  ghost predicate MainsBacked(s: Moment) {
    forall p, f :: IsMain(s, p, f) ==> Backed(s, p, f)
  }

  /** The condition of each write in the state that it finds. */
  ghost predicate Allowed(s: Moment, w: Write) {
    match w
    case SaveProduct(p, row) => p in s.now.products && row.main.Some? ==> Backed(s, p, row.main.value)
    case SaveFile(f, entity, status) =>
      forall p: ProductId :: IsMain(s, p, f) ==> (entity == Some(p) && status == READY) || (p, f) in s.clearing
    case Detach(p, f, status) => forall q :: IsMain(s, q, f) ==> q == p || (q, f) in s.clearing
    case _ => true
  }

  lemma SaveFileIff(s: Moment, f: FileId, entity: Option<ProductId>, status: FileStatus)
    requires MainsBacked(s)
    ensures MainsBacked(Apply(s, SaveFile(f, entity, status))) <==> Allowed(s, SaveFile(f, entity, status))
  {
    var t := Apply(s, SaveFile(f, entity, status));
    assert forall p, g :: IsMain(t, p, g) <==> IsMain(s, p, g);
    if MainsBacked(t) {
      forall p: ProductId | IsMain(s, p, f) ensures (entity == Some(p) && status == READY) || (p, f) in s.clearing {
        assert IsMain(t, p, f) && Backed(s, p, f);
      }
    }
  }

  lemma DetachIff(s: Moment, p: ProductId, f: FileId, status: FileStatus)
    requires MainsBacked(s)
    ensures MainsBacked(Apply(s, Detach(p, f, status))) <==> Allowed(s, Detach(p, f, status))
  {
    var t := Apply(s, Detach(p, f, status));
    assert forall q, g :: IsMain(t, q, g) <==> IsMain(s, q, g);
    if MainsBacked(t) {
      forall q | IsMain(s, q, f) ensures q == p || (q, f) in s.clearing {
        assert IsMain(t, q, f) && Backed(s, q, f);
      }
    }
  }

  lemma SaveProductIff(s: Moment, p: ProductId, row: ProductRow)
    requires MainsBacked(s)
    ensures MainsBacked(Apply(s, SaveProduct(p, row))) <==> Allowed(s, SaveProduct(p, row))
  {
    var t := Apply(s, SaveProduct(p, row));
    assert forall q, f :: Backed(t, q, f) <==> Backed(s, q, f);
    if p in s.now.products {
      assert row.main.Some? ==> IsMain(t, p, row.main.value);
      assert forall q, f :: q != p ==> (IsMain(t, q, f) <==> IsMain(s, q, f));
    }
  }

  lemma ClearMainKeeps(s: Moment, p: ProductId, f: FileId)
    requires MainsBacked(s)
    ensures MainsBacked(Apply(s, ClearMain(p, f)))
  {
    var t := Apply(s, ClearMain(p, f));
    forall q, g | IsMain(t, q, g) ensures Backed(t, q, g) {
      assert IsMain(s, q, g) && Backed(s, q, g);
    }
  }

  /** A write keeps every main image backed exactly when it meets its condition. */
  lemma WriteIff(s: Moment, w: Write)
    requires MainsBacked(s)
    ensures MainsBacked(Apply(s, w)) <==> Allowed(s, w)
  {
    match w
    case SaveFile(f, entity, status) => SaveFileIff(s, f, entity, status);
    case Detach(p, f, status) => DetachIff(s, p, f, status);
    case SaveProduct(p, row) => SaveProductIff(s, p, row);
    case ClearMain(p, f) => ClearMainKeeps(s, p, f);
    case _ =>
      forall q, g | IsMain(Apply(s, w), q, g) ensures Backed(Apply(s, w), q, g) {
        assert IsMain(s, q, g) && Backed(s, q, g);
      }
  }

  // ---- Every interleaving

  ghost predicate BackedThroughout(s: Moment, ws: seq<Write>)
    decreases |ws|
  {
    MainsBacked(s) && (ws != [] ==> BackedThroughout(Apply(s, ws[0]), ws[1..]))
  }

  ghost predicate AllAllowed(s: Moment, ws: seq<Write>)
    decreases |ws|
  {
    ws != [] ==> Allowed(s, ws[0]) && AllAllowed(Apply(s, ws[0]), ws[1..])
  }

  lemma {:induction false} BackedThroughoutIff(s: Moment, ws: seq<Write>)
    requires MainsBacked(s)
    ensures BackedThroughout(s, ws) <==> AllAllowed(s, ws)
    ensures AllAllowed(s, ws) ==> MainsBacked(Replay(s, ws))
    decreases |ws|
  {
    hide MainsBacked, Allowed, Apply;
    if ws != [] {
      WriteIff(s, ws[0]);
      if Allowed(s, ws[0]) {
        BackedThroughoutIff(Apply(s, ws[0]), ws[1..]);
      } else if ws[1..] == [] {
      }
    }
  }

  lemma BackedMains(s: Moment)
    requires s.clearing == multiset{}
    ensures MainsBacked(s) <==> MainsOk(s.now)
  {
    if MainsBacked(s) {
      forall p | p in s.now.products && s.now.products[p].main.Some?
        ensures AttachedTo(s.now, p, s.now.products[p].main.value)
        ensures s.now.files[s.now.products[p].main.value].status == READY
      {
        assert IsMain(s, p, s.now.products[p].main.value);
      }
    }
  }

  const Nothing := Moment(State(map[], []), multiset{})

  /** From an empty catalogue, for every interleaving: every main image is READY and attached, or being
      cleared, at every moment, exactly when every write meets its condition in the state it finds.
      Then, whenever no removal is between its two writes, main images are READY, attached and of one
      product each. */
  lemma MainImagesIff(ws: seq<Write>, p: ProductId, q: ProductId)
    ensures BackedThroughout(Nothing, ws) <==> AllAllowed(Nothing, ws)
    ensures AllAllowed(Nothing, ws) ==> MainsBacked(Replay(Nothing, ws))
    ensures var s := Replay(Nothing, ws);
            AllAllowed(Nothing, ws) && s.clearing == multiset{} ==>
              && MainsOk(s.now)
              && (p != q && p in s.now.products && q in s.now.products && s.now.products[p].main.Some? ==>
                    s.now.products[q].main != s.now.products[p].main)
  {
    hide Replay, BackedThroughout, AllAllowed, Apply, Allowed;
    var s := Replay(Nothing, ws);
    BackedThroughoutIff(Nothing, ws);
    if AllAllowed(Nothing, ws) && s.clearing == multiset{} {
      BackedMains(s);
    }
  }

  // ---- Calls as writes

  /** The writes of a call that nothing interrupts. */
  function Writes(s: State, c: Call): seq<Write> {
    match c
    case CreateProduct(p) => if p in s.products then [] else [InsertProduct(p)]
    case RemoveProduct(p) => if Live(s, p) then [SoftDelete(p)] else []
    case CreateUpload(user, entity) => [InsertFile(user, entity)]
    case CompleteUpload(user, f, stored) => ReadyWrites(s, user, f, stored)
    case PrepareFile(user, f, stored) => ReadyWrites(s, user, f, stored)
    case AddImage(p, f) => if Attachable(s, p, f) then [SaveFile(f, Some(p), READY)] else []
    case RemoveImage(p, f) =>
      if Live(s, p) && AttachedTo(s, p, f) then [Detach(p, f, s.files[f].status), ClearMain(p, f)] else []
    case SetMainImage(p, f) =>
      if MayBeMain(s, p, f) then [SaveProduct(p, s.products[p].(main := Some(f)))] else []
  }

  function ReadyWrites(s: State, user: UserId, f: FileId, stored: bool): seq<Write> {
    if f < |s.files| && s.files[f].owner == user && stored && s.files[f].status == PENDING
    then [SaveFile(f, s.files[f].entity, READY)] else []
  }

  lemma OneWrite(s: Moment, w: Write)
    ensures Replay(s, [w]) == Apply(s, w) && (AllAllowed(s, [w]) <==> Allowed(s, w))
  {
    hide Apply, Allowed;
    assert [w][1..] == [];
  }

  lemma TwoWrites(s: Moment, v: Write, w: Write)
    ensures Replay(s, [v, w]) == Apply(Apply(s, v), w)
    ensures AllAllowed(s, [v, w]) <==> Allowed(s, v) && Allowed(Apply(s, v), w)
  {
    hide Apply, Allowed;
    assert [v, w][1..] == [w];
    OneWrite(Apply(s, v), w);
  }

  lemma RemovalIsWrites(s: State, p: ProductId, f: FileId)
    requires MainsOk(s) && Live(s, p) && AttachedTo(s, p, f)
    ensures Replay(Moment(s, multiset{}), Writes(s, RemoveImage(p, f)))
         == Moment(Step(s, RemoveImage(p, f)), multiset{})
    ensures AllAllowed(Moment(s, multiset{}), Writes(s, RemoveImage(p, f)))
  {
    hide Replay, AllAllowed;
    TwoWrites(Moment(s, multiset{}), Detach(p, f, s.files[f].status), ClearMain(p, f));
  }

  /** A call that no other call overlaps is its writes, and they meet their conditions. */
  lemma CallIsWrites(s: State, c: Call)
    requires MainsOk(s)
    ensures Replay(Moment(s, multiset{}), Writes(s, c)) == Moment(Step(s, c), multiset{})
    ensures AllAllowed(Moment(s, multiset{}), Writes(s, c))
  {
    hide Replay, AllAllowed;
    var m, ws := Moment(s, multiset{}), Writes(s, c);
    if c.RemoveImage? && ws != [] {
      RemovalIsWrites(s, c.product, c.file);
    } else if ws == [] {
      NoWrites(m);
    } else {
      OneWrite(m, ws[0]);
    }
  }

  lemma NoWrites(s: Moment)
    ensures Replay(s, []) == s && AllAllowed(s, [])
  {
  }

  // ---- Rows that have not changed since they were read

  /** The write is what a call saves when the rows that it read still hold what it read. */
  predicate Fresh(s: Moment, w: Write) {
    match w
    case SaveProduct(p, row) =>
      && p in s.now.products
      && (row.main == s.now.products[p].main || (row.main.Some? && ReadyAt(s.now, p, row.main.value)))
    case SaveFile(f, entity, status) =>
      && f < |s.now.files| && status == READY
      && (if s.now.files[f].status == READY then s.now.files[f].entity == None else entity == s.now.files[f].entity)
    case Detach(p, f, status) => AttachedTo(s.now, p, f)
    case _ => true
  }

  predicate ReadyAt(s: State, p: ProductId, f: FileId) {
    AttachedTo(s, p, f) && s.files[f].status == READY
  }

  predicate AllFresh(s: Moment, ws: seq<Write>)
    decreases |ws|
  {
    ws != [] ==> Fresh(s, ws[0]) && AllFresh(Apply(s, ws[0]), ws[1..])
  }

  lemma FreshIsAllowed(s: Moment, w: Write)
    requires MainsBacked(s) && Fresh(s, w)
    ensures Allowed(s, w)
  {
    forall p, f | IsMain(s, p, f) ensures Backed(s, p, f) {
    }
  }

  /** Saving only rows that nobody changed since they were read would keep every main image backed,
      whatever overlaps. */
  lemma {:induction false} FreshKeepsMains(s: Moment, ws: seq<Write>)
    requires MainsBacked(s) && AllFresh(s, ws)
    ensures BackedThroughout(s, ws)
    decreases |ws|
  {
    hide MainsBacked, Allowed, Apply, Fresh;
    if ws != [] {
      FreshIsAllowed(s, ws[0]);
      WriteIff(s, ws[0]);
      FreshKeepsMains(Apply(s, ws[0]), ws[1..]);
    }
  }

  // ---- Where overlapping calls fail

  /** A late save of a READY file keeps the main images exactly when it attaches the file to every
      product whose main image it is. */
  lemma SaveEntityIff(s: State, f: FileId, entity: Option<ProductId>)
    requires MainsOk(s) && f < |s.files| && s.files[f].status == READY
    ensures MainsOk(Apply(Moment(s, multiset{}), SaveFile(f, entity, READY)).now) <==>
            (forall p: ProductId :: p in s.products && s.products[p].main == Some(f) ==> entity == Some(p))
  {
    var m := Moment(s, multiset{});
    BackedMains(m);
    WriteIff(m, SaveFile(f, entity, READY));
    BackedMains(Apply(m, SaveFile(f, entity, READY)));
    assert forall p :: IsMain(m, p, f) <==> p in s.products && s.products[p].main == Some(f);
  }

  /** Two products and one READY file that is attached nowhere. */
  const TwoProducts := State(map[1 := ProductRow(false, None), 2 := ProductRow(false, None)],
                             [FileRecord(0, None, READY)])

  /** Both `addImage` calls have passed their checks, and the first to write goes on to a main image. */
  lemma FirstAdded() returns (s: Moment)
    ensures s == Moment(State(map[1 := ProductRow(false, None), 2 := ProductRow(false, Some(0))],
                              [FileRecord(0, Some(2), READY)]), multiset{})
    ensures s == Replay(Moment(TwoProducts, multiset{}),
                        [SaveFile(0, Some(2), READY), SaveProduct(2, ProductRow(false, Some(0)))])
    ensures Attachable(TwoProducts, 1, 0) && Attachable(TwoProducts, 2, 0)
  {
    TwoWrites(Moment(TwoProducts, multiset{}), SaveFile(0, Some(2), READY), SaveProduct(2, ProductRow(false, Some(0))));
    s := Apply(Apply(Moment(TwoProducts, multiset{}), SaveFile(0, Some(2), READY)),
               SaveProduct(2, ProductRow(false, Some(0))));
  }

  /** The late save of the other call takes the file away, and then the file can become the main image
      of both products. */
  lemma OverlappingAdds()
    ensures Attachable(TwoProducts, 1, 0) && Attachable(TwoProducts, 2, 0)
    ensures var first := [SaveFile(0, Some(2), READY), SaveProduct(2, ProductRow(false, Some(0)))];
            var s := Replay(Moment(TwoProducts, multiset{}), first);
            var late := Apply(s, SaveFile(0, Some(1), READY)).now;
            var both := Step(late, SetMainImage(1, 0));
            && MainsOk(s.now) && !MainsOk(late) && MayBeMain(late, 1, 0)
            && both.products == map[1 := ProductRow(false, Some(0)), 2 := ProductRow(false, Some(0))]
  {
    var s := FirstAdded();
    var late := Apply(s, SaveFile(0, Some(1), READY)).now;
    assert late.products[2].main == Some(0) && !AttachedTo(late, 2, 0);
  }

  /** Between the two writes of `removeImage` the main image is already detached. */
  lemma InRemoval(s: State, p: ProductId, f: FileId)
    requires MainsOk(s) && Live(s, p) && s.products[p].main == Some(f)
    ensures var between := Apply(Moment(s, multiset{}), Detach(p, f, READY));
            MainsBacked(between) && !MainsOk(between.now) && MainsOk(Apply(between, ClearMain(p, f)).now)
  {
    var m := Moment(s, multiset{});
    var between := Apply(m, Detach(p, f, READY));
    CallIsWrites(s, RemoveImage(p, f));
    TwoWrites(m, Detach(p, f, READY), ClearMain(p, f));
    StepKeepsMains(s, RemoveImage(p, f));
    BackedMains(m);
    WriteIff(m, Detach(p, f, READY));
    assert between.now.products[p].main == Some(f) && !AttachedTo(between.now, p, f);
  }

  /** A product that was read before the removal of its main image and is saved after it, by `update`,
      brings the detached main image back. */
  lemma StaleProductSave(s: State, p: ProductId, f: FileId)
    requires MainsOk(s) && Live(s, p) && s.products[p].main == Some(f)
    ensures var removed := Step(s, RemoveImage(p, f));
            var late := Apply(Moment(removed, multiset{}), SaveProduct(p, s.products[p]));
            MainsOk(removed) && !MainsOk(late.now)
  {
    var removed := Step(s, RemoveImage(p, f));
    var m := Moment(removed, multiset{});
    StepKeepsMains(s, RemoveImage(p, f));
    BackedMains(m);
    WriteIff(m, SaveProduct(p, s.products[p]));
    BackedMains(Apply(m, SaveProduct(p, s.products[p])));
  }
}
