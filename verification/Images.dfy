/** Product images: uploads become READY, are attached to products and made main images.  Here every
    service call is one step; `ImageWrites` lets calls overlap. */
module Images {
  import opened Common

  type UserId = nat
  type ProductId = nat
  type FileId = nat

  datatype FileStatus = PENDING | READY

  datatype FileRecord = FileRecord(owner: UserId, entity: Option<ProductId>, status: FileStatus)

  datatype ProductRow = ProductRow(deleted: bool, main: Option<FileId>)

  /** Product ids are keys, file ids positions. */
  datatype State = State(products: map<ProductId, ProductRow>, files: seq<FileRecord>)

  datatype Call =
    | CreateProduct(product: ProductId)
    | RemoveProduct(product: ProductId)
    | CreateUpload(user: UserId, entity: Option<ProductId>)
    | CompleteUpload(user: UserId, file: FileId, stored: bool)
    | PrepareFile(user: UserId, file: FileId, stored: bool)
    | AddImage(product: ProductId, file: FileId)
    | RemoveImage(product: ProductId, file: FileId)
    | SetMainImage(product: ProductId, file: FileId)

  predicate Live(s: State, p: ProductId) {
    p in s.products && !s.products[p].deleted
  }

  /** What `addImage` asks before it attaches the file. */
  predicate Attachable(s: State, p: ProductId, f: FileId) {
    Live(s, p) && f < |s.files| && s.files[f].status == READY && s.files[f].entity == None
  }

  predicate AttachedTo(s: State, p: ProductId, f: FileId) {
    f < |s.files| && s.files[f].entity == Some(p)
  }

  /** What `setMainImage` asks before it writes. */
  predicate MayBeMain(s: State, p: ProductId, f: FileId) {
    Live(s, p) && AttachedTo(s, p, f) && s.files[f].status == READY
  }

  function WriteMain(s: State, p: ProductId, main: Option<FileId>): State
    requires p in s.products
  {
    s.(products := s.products[p := s.products[p].(main := main)])
  }

  /** Marks the file READY when the caller owns it and the object is in the bucket. */
  function MarkReady(s: State, user: UserId, f: FileId, stored: bool): State {
    if f < |s.files| && s.files[f].owner == user && stored
    then s.(files := s.files[f := s.files[f].(status := READY)])
    else s
  }

  function Step(s: State, c: Call): State {
    match c
    case CreateProduct(p) => if p in s.products then s else s.(products := s.products[p := ProductRow(false, None)])
    case RemoveProduct(p) => if Live(s, p) then s.(products := s.products[p := s.products[p].(deleted := true)]) else s
    case CreateUpload(user, entity) => s.(files := s.files + [FileRecord(user, entity, PENDING)])
    case CompleteUpload(user, f, stored) => MarkReady(s, user, f, stored)
    case PrepareFile(user, f, stored) => MarkReady(s, user, f, stored)
    case AddImage(p, f) =>
      if Attachable(s, p, f) then s.(files := s.files[f := s.files[f].(entity := Some(p))]) else s
    case RemoveImage(p, f) =>
      if Live(s, p) && AttachedTo(s, p, f) then
        var detached := s.(files := s.files[f := s.files[f].(entity := None)]);
        if s.products[p].main == Some(f) then WriteMain(detached, p, None) else detached
      else s
    case SetMainImage(p, f) => if MayBeMain(s, p, f) then WriteMain(s, p, Some(f)) else s
  }

  /** Products are inserted without a main image and only marked as deleted; both leave the files alone. */
  lemma ProductCalls(s: State, p: ProductId)
    ensures var t := Step(s, CreateProduct(p));
            && t.files == s.files && t.products.Keys == s.products.Keys + {p}
            && t.products[p] == (if p in s.products then s.products[p] else ProductRow(false, None))
            && forall q :: q in s.products ==> t.products[q] == s.products[q]
    ensures var t := Step(s, RemoveProduct(p));
            && t.files == s.files && t.products.Keys == s.products.Keys
            && forall q :: q in s.products ==>
                 t.products[q].main == s.products[q].main
                 && (t.products[q].deleted <==> s.products[q].deleted || q == p)
  {
  }

  function Run(s: State, calls: seq<Call>): State
    decreases |calls|
  {
    if calls == [] then s else Run(Step(s, calls[0]), calls[1..])
  }

  /** A main image is a READY file attached to its product. */
  predicate MainsOk(s: State) {
    forall p :: p in s.products && s.products[p].main.Some? ==>
      AttachedTo(s, p, s.products[p].main.value) && s.files[s.products[p].main.value].status == READY
  }

  /** Files are never dropped, keep their owner, stay READY, and move between products only by being
      detached in between. */
  predicate FilesEvolve(files: seq<FileRecord>, later: seq<FileRecord>) {
    && |files| <= |later|
    && (forall f :: 0 <= f < |files| ==> later[f].owner == files[f].owner)
    && (forall f :: 0 <= f < |files| && files[f].status == READY ==> later[f].status == READY)
  }

  lemma StepEvolvesFiles(s: State, c: Call)
    ensures FilesEvolve(s.files, Step(s, c).files)
    ensures forall f :: 0 <= f < |s.files| && s.files[f].entity.Some? ==>
              Step(s, c).files[f].entity in {s.files[f].entity, None}
  {
  }

  lemma StepKeepsMains(s: State, c: Call)
    requires MainsOk(s)
    ensures MainsOk(Step(s, c)) && FilesEvolve(s.files, Step(s, c).files)
    ensures forall f :: 0 <= f < |s.files| && s.files[f].entity.Some? ==>
              Step(s, c).files[f].entity in {s.files[f].entity, None}
  {
    StepEvolvesFiles(s, c);
    hide FilesEvolve;
  }

  lemma {:induction false} RunKeepsMains(s: State, calls: seq<Call>)
    requires MainsOk(s)
    ensures MainsOk(Run(s, calls)) && FilesEvolve(s.files, Run(s, calls).files)
    decreases |calls|
  {
    hide MainsOk, Step;
    if calls != [] {
      StepKeepsMains(s, calls[0]);
      RunKeepsMains(Step(s, calls[0]), calls[1..]);
    }
  }

  /** From an empty catalogue, in every run: a product's main image is a READY file attached to that
      product, and no file is the main image of two products. */
  lemma MainImages(calls: seq<Call>, p: ProductId, q: ProductId)
    requires var s := Run(State(map[], []), calls);
             p in s.products && q in s.products && s.products[p].main.Some?
    ensures var s := Run(State(map[], []), calls);
            && MainsOk(s) && s.products[p].main.value < |s.files|
            && (p != q ==> s.products[q].main != s.products[p].main)
  {
    hide Run;
    RunKeepsMains(State(map[], []), calls);
  }

  /** READY never reverts. */
  lemma ReadyStays(calls: seq<Call>, more: seq<Call>, f: FileId)
    requires var s := Run(State(map[], []), calls); f < |s.files| && s.files[f].status == READY
    ensures var t := Run(Run(State(map[], []), calls), more); f < |t.files| && t.files[f].status == READY
  {
    hide Run;
    RunKeepsMains(State(map[], []), calls);
    RunKeepsMains(Run(State(map[], []), calls), more);
  }

  /** One way in which overlapping calls break this: an image is removed between the check and the write
      of `setMainImage`. */
  lemma OverlappingRemoval(s: State, p: ProductId, f: FileId)
    requires MainsOk(s) && MayBeMain(s, p, f)
    ensures var removed := Step(s, RemoveImage(p, f));
            MainsOk(removed) && !MainsOk(WriteMain(removed, p, Some(f)))
  {
    var removed := Step(s, RemoveImage(p, f));
    StepKeepsMains(s, RemoveImage(p, f));
    assert WriteMain(removed, p, Some(f)).products[p].main == Some(f);
  }

  /** What the late write of `setMainImage` must find.  The other writes of overlapping calls have
      conditions of their own (`ImageWrites.Allowed`). */
  lemma LateWriteIff(s: State, p: ProductId, f: FileId)
    requires MainsOk(s) && p in s.products
    ensures MainsOk(WriteMain(s, p, Some(f))) <==> AttachedTo(s, p, f) && s.files[f].status == READY
  {
    assert WriteMain(s, p, Some(f)).products[p].main == Some(f);
  }

  // ---- products.service.ts and files.service.ts

  class Catalogue {
    var products: map<ProductId, ProductRow>
    var files: seq<FileRecord>

    ghost function Now(): State
      reads this
    {
      State(products, files)
    }

    constructor ()
      ensures Now() == State(map[], []) && MainsOk(Now())
    {
      products, files := map[], [];
    }

    method FindProduct(p: ProductId) returns (found: bool)
      ensures found <==> Live(Now(), p)
    {
      found := p in products && !products[p].deleted;
    }

    method CreatePresignedUpload(user: UserId, entity: Option<ProductId>) returns (f: FileId)
      modifies this`files
      ensures Now() == Step(old(Now()), CreateUpload(user, entity)) && f == |old(files)|
      ensures files == old(files) + [FileRecord(user, entity, PENDING)]
    {
      f := |files|;
      files := files + [FileRecord(user, entity, PENDING)];
    }

    method CompleteUpload(user: UserId, f: FileId, stored: bool) returns (ok: bool)
      modifies this`files
      ensures Now() == Step(old(Now()), Call.CompleteUpload(user, f, stored))
      ensures ok <==> f < |old(files)| && old(files)[f].owner == user && (old(files)[f].status == READY || stored)
      ensures files == if ok then old(files)[f := old(files)[f].(status := READY)] else old(files)
    {
      if f >= |files| || files[f].owner != user {
        return false;
      }
      if files[f].status == READY {
        assert files[f := files[f].(status := READY)] == files;
        return true;
      }
      if !stored {
        return false;
      }
      files := files[f := files[f].(status := READY)];
      ok := true;
    }

    method PrepareFileForEntity(user: UserId, f: FileId, stored: bool) returns (ok: bool)
      modifies this`files
      ensures Now() == Step(old(Now()), PrepareFile(user, f, stored))
      ensures ok <==> f < |old(files)| && old(files)[f].owner == user && stored
      ensures files == if ok then old(files)[f := old(files)[f].(status := READY)] else old(files)
    {
      if f >= |files| || files[f].owner != user || !stored {
        return false;
      }
      if files[f].status == PENDING {
        files := files[f := files[f].(status := READY)];
      }
      assert files == old(files)[f := old(files)[f].(status := READY)];
      ok := true;
    }

    method AddImage(p: ProductId, f: FileId) returns (ok: bool)
      modifies this`files
      ensures Now() == Step(old(Now()), Call.AddImage(p, f))
      ensures ok <==>
              && p in products && !products[p].deleted && f < |old(files)| && old(files)[f].status == READY
              && (old(files)[f].entity == None || old(files)[f].entity == Some(p))
      ensures files == if ok then old(files)[f := old(files)[f].(entity := Some(p))] else old(files)
    {
      var found := FindProduct(p);
      if !found || f >= |files| || files[f].status != READY {
        return false;
      }
      if files[f].entity != None && files[f].entity != Some(p) {
        return false;
      }
      if files[f].entity == Some(p) {
        assert files[f := files[f].(entity := Some(p))] == files;
        return true;
      }
      files := files[f := files[f].(entity := Some(p))];
      ok := true;
    }

    method RemoveImage(p: ProductId, f: FileId) returns (ok: bool)
      modifies this`files, this`products
      ensures Now() == Step(old(Now()), Call.RemoveImage(p, f))
      ensures ok <==>
              && p in old(products) && !old(products)[p].deleted
              && f < |old(files)| && old(files)[f].entity == Some(p)
      ensures files == if ok then old(files)[f := old(files)[f].(entity := None)] else old(files)
      ensures products == if ok && old(products)[p].main == Some(f)
                          then old(products)[p := old(products)[p].(main := None)] else old(products)
    {
      var found := FindProduct(p);
      if !found || f >= |files| || files[f].entity != Some(p) {
        return false;
      }
      files := files[f := files[f].(entity := None)];
      if products[p].main == Some(f) {
        products := products[p := products[p].(main := None)];
      }
      ok := true;
    }

    method AssociateMainImage(p: ProductId, f: FileId)
      requires Live(Now(), p)
      modifies this`products
      ensures Now() == WriteMain(old(Now()), p, Some(f))
    {
      products := products[p := products[p].(main := Some(f))];
    }

    method SetMainImage(p: ProductId, f: FileId) returns (ok: bool)
      modifies this`products
      ensures Now() == Step(old(Now()), Call.SetMainImage(p, f))
      ensures ok <==>
              && p in old(products) && !old(products)[p].deleted
              && f < |files| && files[f].entity == Some(p) && files[f].status == READY
      ensures products == if ok then old(products)[p := old(products)[p].(main := Some(f))] else old(products)
    {
      var found := FindProduct(p);
      if !found || f >= |files| || files[f].entity != Some(p) || files[f].status != READY {
        return false;
      }
      AssociateMainImage(p, f);
      ok := true;
    }
  }
}
