/** One push copy from start to end: parse, plan, record, push, record. */
module Copy {
  import opened Content
  import opened ImageModel
  import SP = StoreProtocol
  import opened Errors
  import opened Planning
  import opened PushProtocol
  import PS = PushSafety
  import opened Transfer
  import opened CopyResult
  import opened CopyAccount
  import opened CopyOutcome

  /** ParseReference and Reference.String. */
  datatype Naming = Naming(parse: string -> Option<Reference>, str: Reference -> string)

  /** A parsed reference parses back from its own string. */
  ghost predicate Stable(naming: Naming) {
    forall s :: naming.parse(s).Some? ==> naming.parse(naming.str(naming.parse(s).value)) == naming.parse(s)
  }

  ghost predicate DistinctNames(naming: Naming, refs: seq<Reference>) {
    forall i, j | 0 <= i < j < |refs| :: naming.str(refs[i]) != naming.str(refs[j])
  }

  /** One reference per distinct name, each of an image given, none left out. */
  ghost predicate ParsedFrom(naming: Naming, images: seq<string>, refs: seq<Reference>) {
    && DistinctNames(naming, refs)
    && (forall r | r in refs :: exists s :: s in images && naming.parse(s) == Some(r))
    && (forall s | s in images && naming.parse(s).Some? ::
          exists r :: r in refs && naming.str(r) == naming.str(naming.parse(s).value))
  }

  /** parseSet: refused when empty or when an image does not parse. */
  method ParseSet(naming: Naming, images: seq<string>) returns (refs: seq<Reference>, ok: bool)
    ensures ok <==> images != [] && forall s | s in images :: naming.parse(s).Some?
    ensures ParsedFrom(naming, images, refs)
  {
    refs, ok := [], images != [];
    var seen: set<string> := {};
    for i := 0 to |images|
      invariant ok <==> images != [] && forall k | 0 <= k < i :: naming.parse(images[k]).Some?
      invariant DistinctNames(naming, refs)
      invariant forall n :: n in seen <==> exists r :: r in refs && naming.str(r) == n
      invariant forall r | r in refs :: exists s :: s in images && naming.parse(s) == Some(r)
      invariant forall k | 0 <= k < i && naming.parse(images[k]).Some? ::
        naming.str(naming.parse(images[k]).value) in seen
    {
      var parsed := naming.parse(images[i]);
      if parsed.None? {
        ok := false;
        continue;
      }
      var name := naming.str(parsed.value);
      if name !in seen {
        assert images[i] in images;
        ghost var was := refs;
        seen := seen + {name};
        refs := refs + [parsed.value];
        assert parsed.value in refs;
        assert forall r | r in was :: r in refs;
      }
    }
  }

  lemma NamesAreDistinct(naming: Naming, refs: seq<Reference>)
    requires DistinctNames(naming, refs)
    ensures NoDuplicates(refs)
  {
  }

  lemma PlanErrLeaves(errs: seq<Err>)
    requires forall x | x in errs :: x.EntryFailure?
    ensures Leaves(Join(errs)) == errs
  {
    forall i | 0 <= i < |errs| ensures !errs[i].Joined? {
      assert errs[i] in errs;
    }
    FlattenLeaves(errs);
  }

  /** The references of a set, each parsed again from its own string. */
  method Normalize(naming: Naming, refs: seq<Reference>) returns (again: seq<Option<Reference>>)
    requires forall r | r in refs :: naming.parse(naming.str(r)) == Some(r)
    ensures Known(again) == refs && None !in again
  {
    again := [];
    for i := 0 to |refs|
      invariant Known(again) == refs[..i] && None !in again
    {
      var r := naming.parse(naming.str(refs[i]));
      assert refs[i] in refs;
      assert (again + [r])[..|again|] == again;
      again := again + [r];
    }
  }

  /** What is known once planning is recorded: rows0 are the rows as laid out, `rows` as they are now. */
  ghost predicate PlanRecorded(
      keys: seq<Request>, plan: seq<Entry>, planErrs: seq<Err>, rows0: seq<Row>, rows: seq<Row>,
      claims: seq<Option<nat>>)
  {
    && Keys(rows0) == keys && NoErrors(rows0) && ClaimsOK(plan, rows0, claims) && Recorded(rows0, rows, planErrs)
    && Answered(keys, plan, planErrs) && FailuresOnly(planErrs, false)
  }

  /** Plans the push, lays out the rows, and records the planning errors: all of them go to rows. */
  method PlanRows(
      pusher: Pusher, naming: Naming, src: Source, refs: seq<Reference>, platforms: seq<Platform>, host: Platform,
      base: Pid)
    returns (plan: seq<Entry>, res: CopyResult.Result, rest: Option<Err>,
      ghost planErrs: seq<Err>, ghost rows0: seq<Row>, ghost claims: seq<Option<nat>>)
    requires pusher.Valid() && OwnIdle(pusher.s, base) && SourceOK(src) && platforms != []
    requires forall r | r in refs :: naming.parse(naming.str(r)) == Some(r)
    modifies pusher
    ensures pusher.Valid() && OwnIdle(pusher.s, base) && SP.Grows(old(pusher.s.entries), pusher.s.entries)
    ensures SameOwn(old(pusher.s), pusher.s, base)
    ensures PlanOK(
      pusher.w, pusher.s.entries, src, pusher.calm, Requests(refs, platforms), plan, planErrs, false)
    ensures fresh(res) && PlanRecorded(Requests(refs, platforms), plan, planErrs, rows0, res.rows, claims) && rest.None?
  {
    var again := Normalize(naming, refs);
    var errs;
    plan, errs := pusher.PlanPush(src, again, platforms, host, base);
    res := new CopyResult.Result(refs, platforms, plan);
    rows0, planErrs := res.rows, errs;
    claims :| ClaimsOK(plan, rows0, claims);
    FailuresHaveRows(Keys(rows0), plan, errs);
    PlanErrLeaves(errs);
    rest := res.Record(Join(errs));
    NothingReturned(Keys(rows0), errs);
  }

  /** Pushes and records what the push returned: all of it goes to rows. */
  method PushRows(
      pusher: Pusher, res: CopyResult.Result, plan: seq<Entry>, limit: int, base: Pid,
      ghost keys: seq<Request>, ghost planErrs: seq<Err>)
    returns (rest: Option<Err>, ghost pushErrs: seq<Err>)
    requires pusher.Valid() && OwnIdle(pusher.s, base)
    requires Keys(res.rows) == keys && Answered(keys, plan, planErrs) && FailuresOnly(planErrs, false)
    modifies pusher, res
    ensures pusher.Valid() && OwnIdle(pusher.s, base) && SP.Grows(old(pusher.s.entries), pusher.s.entries)
    ensures pusher.origin == old(pusher.s) && Pushed(pusher, plan, limit, base, pushErrs)
    ensures (forall i | 0 <= i < |plan| :: PS.Settled(pusher.w, pusher.s.entries, pushErrs, plan[i]))
    ensures (forall x | x in pushErrs :: PS.NamesOne(x, plan)) && Recorded(old(res.rows), res.rows, pushErrs)
    ensures rest.None?
  {
    var runErr := pusher.Push(plan, limit, base);
    pushErrs := Leaves(runErr);
    FailuresHaveRows(keys, plan, planErrs);
    NothingReturned(keys, pushErrs);
    rest := res.Record(runErr);
  }

  /** The pusher's log is a complete run of the push machine for this plan, and these are its errors. */
  ghost predicate Pushed(pusher: Pusher, plan: seq<Entry>, limit: int, base: Pid, errs: seq<Err>)
    reads pusher
  {
    && pusher.c == Params(pusher.w, plan, Firsts(AllMissing(plan)), if limit <= 0 then 4 else limit, base)
    && PS.Reaches(pusher.c, pusher.origin, pusher.log, pusher.Now()) && Complete(pusher.c, pusher.Now())
    && ErrorsOf(pusher.c, pusher.Now(), errs) && (pusher.calm ==> !pusher.faulty && !pusher.cancelled)
  }

  /** Both errors recorded: the rows are accounted for. */
  lemma BothRecorded(a: Account, keys: seq<Request>, rows0: seq<Row>, rows1: seq<Row>, rows2: seq<Row>)
    requires PlanRecorded(keys, a.plan, a.planErrs, rows0, rows1, a.claims)
    requires Recorded(rows1, rows2, a.pushErrs) && forall x | x in a.pushErrs :: PS.NamesOne(x, a.plan)
    ensures Accounted(a, keys, rows2)
  {
    RowsHave(rows0, rows1, rows2, a.planErrs, a.pushErrs);
    ClaimsStay(a.plan, rows0, rows1, a.planErrs, a.claims);
    ClaimsStay(a.plan, rows1, rows2, a.pushErrs, a.claims);
  }

  /** The rows hold every leaf of both errors, none lost and none twice. */
  lemma RowsHoldBoth(a: Account, keys: seq<Request>, rows0: seq<Row>, rows1: seq<Row>, rows2: seq<Row>)
    requires PlanRecorded(keys, a.plan, a.planErrs, rows0, rows1, a.claims)
    requires Recorded(rows1, rows2, a.pushErrs) && forall x | x in a.pushErrs :: PS.NamesOne(x, a.plan)
    ensures multiset(AllLeaves(rows2)) == multiset(a.planErrs) + multiset(a.pushErrs)
  {
    assert Keys(rows1) == keys;
    FailuresHaveRows(keys, a.plan, a.planErrs);
    RowsKeepAll(rows0, rows1, a.planErrs);
    RowsKeepAll(rows1, rows2, a.pushErrs);
    NoErrorsNoLeaves(rows0);
    AddBoth(multiset(AllLeaves(rows0)), multiset(a.planErrs), multiset(a.pushErrs));
  }

  lemma AddBoth<T>(none: multiset<T>, a: multiset<T>, b: multiset<T>)
    requires none == multiset{}
    ensures none + a + b == a + b
  {
  }

  /** What each row says after a push, repeated requests included. */
  ghost predicate RowSays(w: World, es: SP.Entries, a: Account, keys: seq<Request>, rows: seq<Row>, k: nat)
    requires Accounted(a, keys, rows) && k < |rows|
  {
    var first := FirstRow(keys, keys[k]);
    && (k == first ==> RowDone(w, es, rows[k]))
    && (k != first ==> rows[k].err.None? && (RowDone(w, es, rows[k]) <==> ClaimInLeaf(w, es, a, k)))
    && (rows[first].err.None? ==> InLeaf(w, es, rows[k]))
  }

  lemma EachRowSays(w: World, es: SP.Entries, a: Account, keys: seq<Request>, rows: seq<Row>, k: nat)
    requires Accounted(a, keys, rows) && AllSettled(w, es, a) && k < |rows|
    ensures RowSays(w, es, a, keys, rows, k)
  {
    if FirstRow(keys, keys[k]) == k {
      FirstRowIsDone(w, es, a, keys, rows, k);
    } else {
      LaterRow(w, es, a, keys, rows, k);
    }
    if rows[FirstRow(keys, keys[k])].err.None? {
      RowsFollowTheFirst(w, es, a, keys, rows, k);
    }
  }

  ghost predicate RowFor(rows: seq<Row>, k: nat, ref: Reference, p: Platform) {
    k < |rows| && rows[k].ref == ref && rows[k].platform == p
  }

  ghost predicate HasRow(rows: seq<Row>, ref: Reference, p: Platform) {
    exists k: nat :: RowFor(rows, k, ref, p)
  }

  /** The rows are those of a copy of these references for these platforms. */
  ghost predicate RowsAsked(rows: seq<Row>, refs: seq<Reference>, platforms: seq<Platform>, host: Platform) {
    && (forall r, p :: HasRow(rows, r, p) <==> r in refs && (p in platforms || (platforms == [] && p == host)))
    && |rows| == (if platforms == [] then |refs| else |refs| * |platforms|)
    && (forall i: nat, j: nat | i < |refs| && j < |platforms| ::
          RowFor(rows, At(|platforms|, i, j), refs[i], platforms[j]))
    && (platforms == [] ==> forall i: nat | i < |refs| :: RowFor(rows, i, refs[i], host))
  }

  lemma RowsAreAsked(refs: seq<Reference>, platforms: seq<Platform>, host: Platform, rows: seq<Row>)
    requires Keys(rows) == Requests(refs, Wanted(platforms, host))
    ensures RowsAsked(rows, refs, platforms, host)
  {
    var wanted := Wanted(platforms, host);
    var keys := Requests(refs, wanted);
    RequestsAt(refs, wanted);
    RequestsAreProduct(refs, wanted);
    forall r, p ensures HasRow(rows, r, p) <==> r in refs && (p in platforms || (platforms == [] && p == host)) {
      if (r, p) in keys {
        var k: nat :| k < |keys| && keys[k] == (r, p);
        assert RowFor(rows, k, r, p);
      }
      if HasRow(rows, r, p) {
        var k: nat :| RowFor(rows, k, r, p);
        assert keys[k] == (r, p);
      }
    }
    forall i: nat, j: nat | i < |refs| && j < |platforms|
      ensures RowFor(rows, At(|platforms|, i, j), refs[i], platforms[j])
    {
      assert IsRow(keys, refs, wanted, i, j);
    }
    if platforms == [] {
      forall i: nat | i < |refs| ensures RowFor(rows, i, refs[i], host) {
        assert IsRow(keys, refs, wanted, i, 0) && At(1, i, 0) == i;
      }
    }
  }

  /** A row with a manifest is that of the image its request resolves to, and its two sizes are that image's bytes. */
  ghost predicate SizesFit(w: World, src: Source, row: Row) {
    match row.manifest
    case None => row.missing == 0 && row.present == 0
    case Some(d) =>
      && src(row.ref, row.platform).Some?
      && var img := src(row.ref, row.platform).value;
      && HasManifest(w, img) && d == img.manifest.digest && row.missing + row.present == ImageSize(w, img)
  }

  lemma EachRowSizes(
      w: World, es: SP.Entries, src: Source, calm: bool, a: Account, keys: seq<Request>, rows: seq<Row>, k: nat)
    requires Accounted(a, keys, rows) && PlanOK(w, es, src, calm, keys, a.plan, a.planErrs, false) && k < |rows|
    ensures SizesFit(w, src, rows[k])
  {
    assert Answers(a.plan, rows[k], a.claims[k]);
    if a.claims[k].Some? {
      var e := a.plan[a.claims[k].value];
      assert PlannedFrom(w, es, src, e);
      ImageBlobsSum(w, e.image);
      SplitSums(ImageBlobs(w, e.image).value, e.missing, e.present);
    }
  }

  /** The account of a copy that was not refused: its rows, its error, and for a real copy its push. */
  ghost predicate CopyIs(
      pusher: Pusher, src: Source, keys: seq<Request>, dryRun: bool, limit: int, base: Pid, a: Account, rows: seq<Row>,
      err: Option<Err>)
    reads pusher
  {
    && Accounted(a, keys, rows)
    && multiset(AllLeaves(rows)) == multiset(a.planErrs) + multiset(a.pushErrs)
    && Leaves(err) == AllLeaves(rows) && (err.None? <==> NoErrors(rows))
    && PlanOK(
      pusher.w, if dryRun then pusher.s.entries else pusher.origin.entries, src, pusher.calm,
      keys, a.plan, a.planErrs, false)
    && (if dryRun then a.pushErrs == [] else
        Pushed(pusher, a.plan, limit, base, a.pushErrs) && AllSettled(pusher.w, pusher.s.entries, a))
  }

  /**
   * Copy from containers-storage into a store. Unless it is refused as usage there is one row per
   * distinct image and platform; the rows hold exactly the failures of planning and of the push, and so
   * does the error. The lemmas above then say which rows name a committed leaf: the first of each
   * request whenever it has no error, the others exactly when their own plan entry is in its leaf.
   */
  method CopyPush(
      pusher: Pusher, naming: Naming, src: Source, images: seq<string>, platforms: seq<Platform>, host: Platform,
      dryRun: bool, limit: int, base: Pid)
    returns (res: CopyResult.Result, err: Option<Err>, usage: bool, ghost refs: seq<Reference>, ghost a: Account)
    requires pusher.Valid() && OwnIdle(pusher.s, base) && SourceOK(src) && Stable(naming)
    modifies pusher
    ensures pusher.Valid() && OwnIdle(pusher.s, base) && SP.Grows(old(pusher.s.entries), pusher.s.entries)
    ensures usage <==> images == [] || exists s :: s in images && naming.parse(s).None?
    ensures usage ==> res.rows == [] && err.None? && pusher.s == old(pusher.s)
    // A dry run takes no step of its own in the store.
    ensures dryRun ==> SameOwn(old(pusher.s), pusher.s, base)
    ensures !usage ==>
      && ParsedFrom(naming, images, refs)
      && CopyIs(pusher, src, Requests(refs, Wanted(platforms, host)), dryRun, limit, base, a, res.rows, err)
    // Every reference for every platform asked for, or for the host's when none is: in order, and no other row.
    ensures !usage ==> RowsAsked(res.rows, refs, platforms, host)
    ensures !usage ==> forall k | 0 <= k < |res.rows| :: SizesFit(pusher.w, src, res.rows[k])
    ensures !usage && !dryRun ==> forall k | 0 <= k < |res.rows| ::
      RowSays(pusher.w, pusher.s.entries, a, Requests(refs, Wanted(platforms, host)), res.rows, k)
    ensures !usage && !dryRun && NoDuplicates(platforms) ==> AllRowsDone(pusher.w, pusher.s.entries, res.rows)
    ensures !usage && !dryRun && pusher.calm && CollisionFree(pusher.w.hash) && SourceInOrder(pusher.w, src) ==>
      forall k | 0 <= k < |res.rows| :: RowEnds(pusher.w, pusher.s.entries, src, res.rows, k)
  {
    var parsed, ok := ParseSet(naming, images);
    refs, usage := parsed, !ok;
    if usage {
      res := new CopyResult.Result([], [], []);
      a := Account([], [], [], []);
      return res, None, usage, refs, a;
    }
    res, err, a := CopyParsed(pusher, naming, src, images, parsed, Wanted(platforms, host), host, dryRun, limit, base);
    RowsAreAsked(refs, platforms, host, res.rows);
    ghost var keys := Requests(refs, Wanted(platforms, host));
    ghost var es := if dryRun then pusher.s.entries else pusher.origin.entries;
    forall k: nat | k < |res.rows| ensures SizesFit(pusher.w, src, res.rows[k]) {
      EachRowSizes(pusher.w, es, src, pusher.calm, a, keys, res.rows, k);
    }
    if !dryRun {
      CopySays(pusher, src, keys, limit, base, a, res.rows, err);
      if NoDuplicates(platforms) {
        NamesAreDistinct(naming, refs);
        RequestsAreDistinct(refs, Wanted(platforms, host));
        DistinctRowsAreDone(pusher.w, pusher.s.entries, a, keys, res.rows);
      }
    }
  }

  /** In a calm copy, what each row says of its source and its leaf. */
  ghost predicate RowEnds(w: World, es: SP.Entries, src: Source, rows: seq<Row>, k: nat)
    requires k < |rows|
  {
    RowFollows(w, es, src, Keys(rows)[k], rows[FirstRow(Keys(rows), Keys(rows)[k])], rows[k])
  }

  lemma CopySays(
      pusher: Pusher, src: Source, keys: seq<Request>, limit: int, base: Pid, a: Account, rows: seq<Row>,
      err: Option<Err>)
    requires CopyIs(pusher, src, keys, false, limit, base, a, rows, err)
    ensures forall k | 0 <= k < |rows| :: RowSays(pusher.w, pusher.s.entries, a, keys, rows, k)
    ensures pusher.calm && CollisionFree(pusher.w.hash) && SourceInOrder(pusher.w, src) ==>
      forall k | 0 <= k < |rows| :: RowEnds(pusher.w, pusher.s.entries, src, rows, k)
  {
    forall k | 0 <= k < |rows| ensures RowSays(pusher.w, pusher.s.entries, a, keys, rows, k) {
      EachRowSays(pusher.w, pusher.s.entries, a, keys, rows, k);
    }
    if pusher.calm && CollisionFree(pusher.w.hash) && SourceInOrder(pusher.w, src) {
      forall k | 0 <= k < |rows| ensures RowEnds(pusher.w, pusher.s.entries, src, rows, k) {
        CalmRow(pusher.c, pusher.origin, pusher.log, pusher.Now(), src, a, keys, rows, k);
      }
    }
  }

  /** The copy once its images have parsed. */
  method CopyParsed(
      pusher: Pusher, naming: Naming, src: Source, ghost images: seq<string>, refs: seq<Reference>,
      platforms: seq<Platform>, host: Platform, dryRun: bool, limit: int, base: Pid)
    returns (res: CopyResult.Result, err: Option<Err>, ghost a: Account)
    requires pusher.Valid() && OwnIdle(pusher.s, base) && SourceOK(src) && platforms != []
    requires Stable(naming) && ParsedFrom(naming, images, refs)
    modifies pusher
    ensures pusher.Valid() && OwnIdle(pusher.s, base) && SP.Grows(old(pusher.s.entries), pusher.s.entries)
    ensures dryRun ==> SameOwn(old(pusher.s), pusher.s, base)
    ensures CopyIs(pusher, src, Requests(refs, platforms), dryRun, limit, base, a, res.rows, err)
  {
    forall r | r in refs ensures naming.parse(naming.str(r)) == Some(r) {
      var s :| s in images && naming.parse(s) == Some(r);
    }
    var plan, rest;
    ghost var planErrs, rows0, claims;
    plan, res, rest, planErrs, rows0, claims := PlanRows(pusher, naming, src, refs, platforms, host, base);
    assert rest.None?;  // so planning never stops the copy as a whole
    ghost var keys, rows1 := Requests(refs, platforms), res.rows;
    assert Keys(rows1) == keys;
    ghost var pushErrs: seq<Err> := [];
    if dryRun {
      NothingRecorded(rows1);
    } else {
      rest, pushErrs := PushRows(pusher, res, plan, limit, base, keys, planErrs);
      assert rest.None?;  // nor does the push
    }
    a := Account(plan, claims, planErrs, pushErrs);
    BothRecorded(a, keys, rows0, rows1, res.rows);
    RowsHoldBoth(a, keys, rows0, rows1, res.rows);
    err := res.Err();
  }
}
