/** How a copy ends when nothing goes wrong on the way: which rows succeed is decided by source and store. */
module CopyOutcome {
  import opened Content
  import opened ImageModel
  import SP = StoreProtocol
  import opened StoreModel = Store
  import opened Errors
  import opened Planning
  import opened PushProtocol
  import opened PushSafety
  import opened Transfer
  import opened CopyResult
  import opened CopyAccount

  /** The source has all blobs of the image, each as its descriptor says. */
  ghost predicate ImageInOrder(w: World, img: Image) {
    && (exists m, cfg :: Sendable(w, img, m, cfg)) && Nameable(w, img)
    && forall d | IsBlob(w, img, d) ::
      d.digest in img.dir && Verifies(w.hash, img.dir[d.digest], d.size, Some(d.digest))
  }

  ghost predicate SourceInOrder(w: World, src: Source) {
    forall ref, p :: src(ref, p).Some? ==> ImageInOrder(w, src(ref, p).value)
  }

  /** A copy whose source is in order, whose calls all get through and whose context is never cancelled. */
  ghost predicate Calm(c: Params, s: State, log: seq<Action>, end: Snap, src: Source, a: Account, keys: seq<Request>) {
    && Reaches(c, s, log, end) && Complete(c, end) && ErrorsOf(c, end, a.pushErrs) && c.plan == a.plan
    && PlanOK(c.w, s.entries, src, true, keys, a.plan, a.planErrs, false)
    && !end.faulty && !end.cancelled && CollisionFree(c.w.hash) && SourceInOrder(c.w, src)
  }

  lemma EntryIsReady(w: World, es: SP.Entries, src: Source, e: Entry)
    requires PlannedFrom(w, es, src, e) && SourceInOrder(w, src)
    ensures Ready(w, es, e)
  {
    var m, cfg :| Sendable(w, e.image, m, cfg);
    DiffedIsReady(w, es, e, m, cfg);
  }

  /** A missing blob of a planned image can be read, and is what its descriptor says. */
  lemma MissingIsFit(w: World, es: SP.Entries, src: Source, e: Entry, d: Descriptor)
    requires PlannedFrom(w, es, src, e) && SourceInOrder(w, src) && d in e.missing
    ensures ValidDigest(d.digest) && d.digest in e.image.dir
    ensures Verifies(w.hash, e.image.dir[d.digest], d.size, Some(d.digest))
  {
    var descs := ImageBlobs(w, e.image).value;
    SplitConserves(descs, e.missing, e.present);
    assert d in multiset(e.missing);
    assert d in multiset(descs);
    ImageBlobsAre(w, e.image);
    assert ImageInOrder(w, e.image);
  }

  lemma UploadIsMissing(plan: seq<Entry>, us: seq<Upload>, i: nat)
    requires us == Firsts(AllMissing(plan)) && i < |us|
    ensures us[i].entry < |plan| && us[i].desc in plan[us[i].entry].missing
  {
    UploadsAreTheMissing(plan, us);
  }

  lemma UploadIsFit(c: Params, es: SP.Entries, src: Source, i: nat)
    requires c.uploads == Firsts(AllMissing(c.plan)) && i < |c.uploads| && SourceInOrder(c.w, src)
    requires forall e | e in c.plan :: PlannedFrom(c.w, es, src, e)
    ensures Uploadable(c, i)
  {
    UploadIsMissing(c.plan, c.uploads, i);
    MissingIsFit(c.w, es, src, c.plan[c.uploads[i].entry], c.uploads[i].desc);
  }

  lemma CalmEntries(c: Params, s: State, log: seq<Action>, end: Snap, src: Source, a: Account, keys: seq<Request>)
    requires Calm(c, s, log, end, src, a, keys)
    ensures forall x | x in a.pushErrs :: x.EntryFailure? && x.cause == Plain(CommitFailed(SP.Conflict))
    ensures forall k: nat | k < |c.plan| :: CalmOutcome(c, end, k)
  {
    forall k | 0 <= k < |c.plan| ensures Ready(c.w, s.entries, c.plan[k]) {
      assert c.plan[k] in a.plan;
      EntryIsReady(c.w, s.entries, src, c.plan[k]);
    }
    forall i: nat | i < |c.uploads| ensures Uploadable(c, i) {
      UploadIsFit(c, s.entries, src, i);
    }
    CalmPushCommits(c, s, log, end, a.pushErrs);
  }

  /** The leaf of a request holds another manifest than the one its source resolves to. */
  ghost predicate Taken(w: World, es: SP.Entries, src: Source, q: Request) {
    src(q.0, q.1).Some? && HoldsOther(w, es, SP.LeafOf(q.0, q.1), src(q.0, q.1).value.manifest.digest)
  }

  /** The push's errors are conflicts over leaves that are taken. */
  lemma CalmError(c: Params, s: State, log: seq<Action>, end: Snap, src: Source, a: Account, keys: seq<Request>, x: Err)
    requires Calm(c, s, log, end, src, a, keys) && x in a.pushErrs
    ensures x.EntryFailure? && Taken(c.w, end.s.entries, src, (x.ref, x.platform))
  {
    CalmEntries(c, s, log, end, src, a, keys);
    var upload, i := WhereErrorsComeFrom(c, end, a.pushErrs, x);
    assert !upload;
    assert CalmOutcome(c, end, i) && PlannedFrom(c.w, s.entries, src, c.plan[i]);
  }

  /** A resolved request of a calm copy is planned. */
  lemma ResolvedIsPlanned(
      w: World, es: SP.Entries, src: Source, keys: seq<Request>, plan: seq<Entry>, errs: seq<Err>, q: Request)
    requires PlanOK(w, es, src, true, keys, plan, errs, false) && SourceInOrder(w, src) && src(q.0, q.1).Some?
    ensures q !in FailedKeys(errs) && forall x | x in errs :: x.EntryFailure? && (x.ref, x.platform) != q
  {
    FailedKeysMembers(errs, q);
    assert Plannable(w, src, q);
  }

  lemma UnresolvedIsUnplanned(
      w: World, es: SP.Entries, src: Source, calm: bool, keys: seq<Request>, plan: seq<Entry>, errs: seq<Err>,
      q: Request)
    requires PlanOK(w, es, src, calm, keys, plan, errs, false) && src(q.0, q.1).None?
    ensures q !in KeysOf(plan)
  {
    forall i | 0 <= i < |plan| ensures KeysOf(plan)[i] != q {
      assert PlannedFrom(w, es, src, plan[i]);
    }
  }

  /** What a calm copy leaves for a request: nothing to plan, the manifest in its leaf, or a conflict over it. */
  ghost predicate RowFollows(w: World, es: SP.Entries, src: Source, q: Request, first: Row, row: Row) {
    match src(q.0, q.1)
    case None => first.err.Some? && row.manifest.None?
    case Some(img) =>
      && row.manifest == Some(img.manifest.digest)
      && (if first.err.None? then SP.Holds(w, es, SP.LeafOf(q.0, q.1), img.manifest.digest) else Taken(w, es, src, q))
  }

  /**
   * A calm copy: a request succeeds exactly when its source resolves it and its leaf is not taken by
   * another manifest. Its first row says which, every row for it has the manifest's digest.
   */
  lemma CalmRow(
      c: Params, s: State, log: seq<Action>, end: Snap, src: Source, a: Account, keys: seq<Request>, rows: seq<Row>,
      k: nat)
    requires Calm(c, s, log, end, src, a, keys) && Accounted(a, keys, rows) && k < |rows|
    ensures RowFollows(c.w, end.s.entries, src, keys[k], rows[FirstRow(keys, keys[k])], rows[k])
  {
    var q := keys[k];
    if src(q.0, q.1).None? {
      UnresolvedRow(c.w, s.entries, src, a, keys, rows, k);
    } else {
      EveryEntrySettles(c, s, log, end, a.pushErrs);
      ResolvedIsPlanned(c.w, s.entries, src, keys, a.plan, a.planErrs, q);
      EveryRowClaims(a, keys, rows, k);
      ClaimIsOfSource(c.w, s.entries, src, a, rows, k);
      EntryInLeaf(c.w, end.s.entries, a, keys, rows, k, a.claims[k].value);
      if rows[FirstRow(keys, q)].err.Some? {
        FirstRowTaken(c, s, log, end, src, a, keys, rows, FirstRow(keys, q));
      }
    }
  }

  lemma UnresolvedRow(w: World, es: SP.Entries, src: Source, a: Account, keys: seq<Request>, rows: seq<Row>, k: nat)
    requires PlanOK(w, es, src, true, keys, a.plan, a.planErrs, false) && Accounted(a, keys, rows) && k < |rows|
    requires src(keys[k].0, keys[k].1).None?
    ensures rows[FirstRow(keys, keys[k])].err.Some? && rows[k].manifest.None?
  {
    UnresolvedIsUnplanned(w, es, src, true, keys, a.plan, a.planErrs, keys[k]);
    ClaimsHaveKeys(a.plan, rows, a.claims);
    assert Answers(a.plan, rows[k], a.claims[k]);
    PlannedOrFailed(keys, a.plan, a.planErrs, keys[k]);
    assert keys[k] in multiset(keys);
    UnplannedShows(a, keys, rows, FirstRow(keys, keys[k]));
  }

  lemma ClaimIsOfSource(w: World, es: SP.Entries, src: Source, a: Account, rows: seq<Row>, k: nat)
    requires (forall e | e in a.plan :: PlannedFrom(w, es, src, e)) && ClaimsOK(a.plan, rows, a.claims)
    requires k < |rows| && a.claims[k].Some?
    ensures var q := Keys(rows)[k];
      src(q.0, q.1).Some? && rows[k].manifest == Some(src(q.0, q.1).value.manifest.digest)
  {
    assert Answers(a.plan, rows[k], a.claims[k]);
    assert PlannedFrom(w, es, src, a.plan[a.claims[k].value]);
  }

  lemma FirstRowTaken(
      c: Params, s: State, log: seq<Action>, end: Snap, src: Source, a: Account, keys: seq<Request>, rows: seq<Row>,
      f: nat)
    requires Calm(c, s, log, end, src, a, keys) && Accounted(a, keys, rows) && f < |rows| && rows[f].err.Some?
    requires src(keys[f].0, keys[f].1).Some?
    ensures Taken(c.w, end.s.entries, src, keys[f])
  {
    ResolvedIsPlanned(c.w, s.entries, src, keys, a.plan, a.planErrs, keys[f]);
    NothingSent(keys, a.planErrs, f);
    if !Taken(c.w, end.s.entries, src, keys[f]) {
      forall x | x in a.pushErrs ensures x.EntryFailure? && (x.ref, x.platform) != keys[f] {
        CalmError(c, s, log, end, src, a, keys, x);
      }
      NothingSent(keys, a.pushErrs, f);
      assert false;
    }
  }

  /** In a calm copy the later rows of a request name a committed leaf exactly when its first row has no error. */
  lemma CalmRepeat(
      c: Params, s: State, log: seq<Action>, end: Snap, src: Source, a: Account, keys: seq<Request>, rows: seq<Row>,
      k: nat)
    requires Calm(c, s, log, end, src, a, keys) && Accounted(a, keys, rows) && k < |rows| && FirstRow(keys, keys[k]) < k
    ensures RowDone(c.w, end.s.entries, rows[k]) <==> rows[FirstRow(keys, keys[k])].err.None?
  {
    CalmRow(c, s, log, end, src, a, keys, rows, k);
    LaterRow(c.w, end.s.entries, a, keys, rows, k);
  }
}
