/**
 * Planning and pushing image sets while any number of other processes use the same store.
 */
module Transfer {
  import opened Content
  import opened ImageModel
  import SP = StoreProtocol
  import opened StoreSafety
  import opened BareManifests
  import StoreModel = Store
  import opened Errors
  import opened Planning
  import opened PushProtocol
  import opened PushInvariant
  import PS = PushSafety
  import opened PushClosure

  // ---------------------------------------------------------------------------------------------
  // Processes of this push and of others

  ghost predicate AllBelow(run: seq<(Pid, SP.Event)>, base: Pid) {
    forall i | 0 <= i < |run| :: run[i].0 < base
  }

  /** The process numbers from base on belong to this push. */
  ghost predicate OwnIdle(s: State, base: Pid) {
    forall p: Pid | p >= base :: s.Phase(p).Over()
  }

  ghost predicate SameOwn(s: State, later: State, base: Pid) {
    forall p: Pid | p >= base :: later.Phase(p) == s.Phase(p)
  }

  lemma {:induction false} OthersLeaveOwn(w: World, s: State, run: seq<(Pid, SP.Event)>, base: Pid)
    requires AllBelow(run, base) && SP.Exec(w, s, run).Some?
    ensures SameOwn(s, SP.Exec(w, s, run).value, base)
    decreases |run|
  {
    if run != [] {
      OthersLeaveOwn(w, SP.Step(w, s, run[0].0, run[0].1).value, run[1..], base);
    }
  }

  // ---------------------------------------------------------------------------------------------
  // Planning

  /** transfer.Source: resolves an entry to an image of the reference and platform asked for. */
  type Source = (Reference, Platform) -> Option<Image>

  ghost predicate SourceOK(src: Source) {
    forall ref, p :: src(ref, p).Some? ==> src(ref, p).value.ref == ref && src(ref, p).value.platform == p
  }

  /** The image's blobs in order, each on one side; those called present are stored. */
  ghost predicate Diffed(w: World, es: SP.Entries, e: Entry) {
    && ImageBlobs(w, e.image).Some? && IsSplit(ImageBlobs(w, e.image).value, e.missing, e.present)
    && AllStored(es, e.present)
  }

  /** The blobs probed so far, well-formed, in order: the present ones are stored, the missing ones were not. */
  ghost predicate Probed(
      start: SP.Entries, es: SP.Entries, done: seq<Descriptor>, missing: seq<Descriptor>, present: seq<Descriptor>)
  {
    && IsSplit(done, missing, present) && AllStored(es, present)
    && (forall d | d in done :: ValidDigest(d.digest))
    && (forall d | d in missing :: SP.BlobEntry(d.digest) !in start)
  }

  lemma ProbedNext(
      start: SP.Entries, es: SP.Entries, later: SP.Entries, done: seq<Descriptor>, missing: seq<Descriptor>,
      present: seq<Descriptor>, d: Descriptor, has: bool)
    requires Probed(start, es, done, missing, present) && SP.Grows(start, later) && SP.Grows(es, later)
    requires ValidDigest(d.digest) && (has <==> SP.BlobEntry(d.digest) in later)
    ensures Probed(
      start, later, done + [d], if has then missing else missing + [d], if has then present + [d] else present)
  {
    SplitNext(done, missing, present, d);
  }

  function Known(refs: seq<Option<Reference>>): seq<Reference> {
    if refs == [] then []
    else
      var k := |refs| - 1;
      Known(refs[..k]) + (match refs[k] case None => [] case Some(ref) => [ref])
  }

  lemma KnownNext(refs: seq<Option<Reference>>, i: nat, platforms: seq<Platform>)
    requires i < |refs|
    ensures refs[i].None? ==> Known(refs[..i + 1]) == Known(refs[..i])
    ensures refs[i].Some? ==>
      Requests(Known(refs[..i + 1]), platforms) ==
        Requests(Known(refs[..i]), platforms) + Pairs(refs[i].value, platforms)
  {
    var known := Known(refs[..i]);
    assert refs[..i + 1][..i] == refs[..i];
    assert known + [] == known;
    if refs[i].Some? {
      assert (known + [refs[i].value])[..|known|] == known;
    }
  }

  function FailedKeys(errs: seq<Err>): seq<Request> {
    if errs == [] then []
    else
      var k := |errs| - 1;
      FailedKeys(errs[..k]) + (if errs[k].EntryFailure? then [(errs[k].ref, errs[k].platform)] else [])
  }

  lemma FailedKeysNext(errs: seq<Err>, x: Err)
    ensures FailedKeys(errs + [x]) == FailedKeys(errs) + (if x.EntryFailure? then [(x.ref, x.platform)] else [])
  {
    assert (errs + [x])[..|errs|] == errs;
  }

  lemma {:induction false} FailedKeysMembers(errs: seq<Err>, q: Request)
    ensures q in FailedKeys(errs) <==> exists x :: x in errs && x.EntryFailure? && (x.ref, x.platform) == q
    decreases |errs|
  {
    if errs != [] {
      var k := |errs| - 1;
      FailedKeysMembers(errs[..k], q);
      assert errs == errs[..k] + [errs[k]];
      assert errs[k] in errs;
    }
  }

  ghost predicate Answered(requests: seq<Request>, plan: seq<Entry>, errs: seq<Err>) {
    IsSplit(requests, KeysOf(plan), FailedKeys(errs))
  }

  ghost predicate FailuresOnly(errs: seq<Err>, unparsed: bool) {
    forall x | x in errs :: x.EntryFailure? || (x == Plain(BadReference) && unparsed)
  }

  ghost predicate Nameable(w: World, img: Image) {
    HasManifest(w, img) && forall d | IsBlob(w, img, d) :: ValidDigest(d.digest)
  }

  /** The source resolves the request to an image whose manifest can be read and names well-formed digests. */
  ghost predicate Plannable(w: World, src: Source, q: Request) {
    src(q.0, q.1).Some? && Nameable(w, src(q.0, q.1).value)
  }

  /** The entry is the diff of what the source resolves its request to, dependencies first. */
  ghost predicate PlannedFrom(w: World, es: SP.Entries, src: Source, e: Entry) {
    && src(e.image.ref, e.image.platform) == Some(e.image) && Plannable(w, src, KeyOf(e)) && Diffed(w, es, e)
    && DependenciesFirst(w, e)
  }

  /** A planned entry is as a push with one worker wants it, unless a part of its image reads as a manifest. */
  lemma PlannedIsOrderly(w: World, es: SP.Entries, later: SP.Entries, src: Source, e: Entry)
    requires PlannedFrom(w, es, src, e) && SP.Grows(es, later)
    ensures Orderly(w, later, e) <==>
      OneManifest(w, e.image, w.manifest(e.image.dir[e.image.manifest.digest]).value)
  {
    forall i | 0 <= i < |e.present| ensures SP.BlobEntry(e.present[i].digest) in later {
      assert SP.BlobEntry(e.present[i].digest) in es;
    }
  }

  /**
   * Requests answered so far: each by a diffed plan entry or a failure that names it, in order. When
   * `calm`, when no probe was made to fail, only requests that cannot be planned have failed.
   */
  ghost predicate PlanOK(
      w: World, es: SP.Entries, src: Source, calm: bool, requests: seq<Request>, plan: seq<Entry>, errs: seq<Err>,
      unparsed: bool)
  {
    && Answered(requests, plan, errs) && FailuresOnly(errs, unparsed)
    && (forall e | e in plan :: PlannedFrom(w, es, src, e))
    && (calm ==> forall x | x in errs && x.EntryFailure? :: !Plannable(w, src, (x.ref, x.platform)))
  }

  lemma AnsweredNext(
      requests: seq<Request>, plan: seq<Entry>, errs: seq<Err>, q: Request, e: Option<Entry>, failure: Err)
    requires Answered(requests, plan, errs)
    requires if e.Some? then KeyOf(e.value) == q else failure.EntryFailure? && (failure.ref, failure.platform) == q
    ensures Answered(requests + [q], plan + Opt(e), if e.None? then errs + [failure] else errs)
  {
    SplitNext(requests, KeysOf(plan), FailedKeys(errs), q);
    if e.Some? {
      assert KeysOf(plan + [e.value]) == KeysOf(plan) + [q];
    } else {
      FailedKeysNext(errs, failure);
      assert plan + Opt(e) == plan;
    }
  }

  lemma PlannedStays(w: World, es: SP.Entries, later: SP.Entries, src: Source, e: Entry)
    requires PlannedFrom(w, es, src, e) && SP.Grows(es, later)
    ensures PlannedFrom(w, later, src, e)
  {
    forall i | 0 <= i < |e.present| ensures SP.BlobEntry(e.present[i].digest) in later {
      assert SP.BlobEntry(e.present[i].digest) in es;
    }
  }

  lemma PlansStay(w: World, es: SP.Entries, later: SP.Entries, src: Source, plan: seq<Entry>, e: Option<Entry>)
    requires (forall x | x in plan :: PlannedFrom(w, es, src, x)) && SP.Grows(es, later)
    requires e.Some? ==> PlannedFrom(w, later, src, e.value)
    ensures forall x | x in plan + Opt(e) :: PlannedFrom(w, later, src, x)
  {
    forall x | x in plan + Opt(e) ensures PlannedFrom(w, later, src, x) {
      if x in plan {
        PlannedStays(w, es, later, src, x);
      }
    }
  }

  lemma PlanNext(
      w: World, es: SP.Entries, later: SP.Entries, src: Source, calm: bool, requests: seq<Request>, plan: seq<Entry>,
      errs: seq<Err>, unparsed: bool, q: Request, e: Option<Entry>, failure: Err)
    requires PlanOK(w, es, src, calm, requests, plan, errs, unparsed) && SP.Grows(es, later)
    requires if e.Some? then KeyOf(e.value) == q else failure.EntryFailure? && (failure.ref, failure.platform) == q
    requires e.Some? ==> PlannedFrom(w, later, src, e.value)
    requires e.None? && calm ==> !Plannable(w, src, q)
    ensures PlanOK(
      w, later, src, calm, requests + [q], plan + Opt(e), if e.None? then errs + [failure] else errs, unparsed)
  {
    AnsweredNext(requests, plan, errs, q, e, failure);
    PlansStay(w, es, later, src, plan, e);
  }

  lemma BadReferenceNext(
      w: World, es: SP.Entries, src: Source, calm: bool, requests: seq<Request>, plan: seq<Entry>, errs: seq<Err>)
    requires PlanOK(w, es, src, calm, requests, plan, errs, true)
    ensures PlanOK(w, es, src, calm, requests, plan, errs + [Plain(BadReference)], true)
  {
    FailedKeysNext(errs, Plain(BadReference));
    assert FailedKeys(errs) + [] == FailedKeys(errs);
  }

  /** A diffed entry of a sendable image is ready to be pushed. */
  lemma DiffedIsReady(w: World, es: SP.Entries, e: Entry, m: Manifest, cfg: Config)
    requires Diffed(w, es, e) && Sendable(w, e.image, m, cfg)
    ensures Ready(w, es, e)
  {
    var descs := ImageBlobs(w, e.image).value;
    SplitConserves(descs, e.missing, e.present);
    ImageBlobsAre(w, e.image);
    forall d | IsBlob(w, e.image, d) ensures d in e.missing || d in e.present {
      assert d in descs;
      assert d in multiset(descs);
      assert d in multiset(e.missing) || d in multiset(e.present);
    }
  }

  // ---------------------------------------------------------------------------------------------
  // Measures

  lemma UpdateShrinks(status: seq<Status>, i: nat, st: Status)
    requires i < |status| && StepsLeft(st) < StepsLeft(status[i])
    ensures Total(StepsLeft, status[i := st]) < Total(StepsLeft, status)
  {
    TotalUpdate(StepsLeft, status, i, st);
  }

  /** With nothing queued and nothing in flight, nothing is left to do. */
  lemma {:induction false} SomethingMoves(status: seq<Status>)
    requires Total(StepsLeft, status) > 0 && NextQueued(status) == |status|
    ensures Total(InFlight, status) > 0
  {
    var i := SomeCounted(StepsLeft, status);
    if Total(InFlight, status) == 0 {
      NothingInFlight(status, i);
    }
  }

  lemma SomeInFlight(status: seq<Status>) returns (i: nat)
    requires Total(InFlight, status) > 0
    ensures i < |status| && !status[i].Queued? && !status[i].Ended?
  {
    i := SomeCounted(InFlight, status);
  }

  lemma FreshRun(c: Params, s: State)
    requires IndexRoundTrip(c.w) && SP.Inv(c.w, s) && OwnIdle(s, c.base)
    requires c.uploads == Firsts(AllMissing(c.plan)) && c.capacity > 0
    ensures PS.Reaches(c, s, [], Start(c, s))
  {
  }

  lemma CompleteIsIdle(c: Params, start: SP.Entries, a: Snap)
    requires PInv(c, start, a) && Complete(c, a)
    ensures OwnIdle(a.s, c.base)
  {
    forall p: Pid | p >= c.base ensures a.s.Phase(p).Over() {
      if p < Committer(c) {
        assert WorkerAt(c, p - c.base, a.status[p - c.base], a.s.Phase(Worker(c, p - c.base)));
      }
    }
  }

  lemma ErrorLeaves(c: Params, a: Snap, errs: seq<Err>)
    requires c.uploads == Firsts(AllMissing(c.plan)) && ErrorsOf(c, a, errs)
    ensures Leaves(Join(errs)) == errs
  {
    PS.EveryErrorNamesAnEntry(c, a, errs);
    forall k | 0 <= k < |errs| ensures !errs[k].Joined? {
      assert PS.NamesOne(errs[k], c.plan);
    }
    FlattenLeaves(errs);
  }

  // ---------------------------------------------------------------------------------------------

  /**
   * A store in use: `s` holds its entries and every process working on it. `calm` says that no call of
   * this client is made to fail and its context is not cancelled; nothing is assumed of other clients.
   */
  class Pusher {
    const w: World
    const calm: bool
    var s: State

    // The push under way; the log is the run of the push machine it has made.
    var c: Params
    var status: seq<Status>
    var held: nat
    var failed: seq<nat>
    var cancelled: bool
    var outcomes: seq<Outcome>
    var busy: bool
    ghost var faulty: bool
    ghost var log: seq<Action>
    ghost var origin: State

    constructor (world: World, calm: bool)
      requires IndexRoundTrip(world)
      ensures w == world && this.calm == calm && Valid() && s == NOTHING
    {
      w, this.calm := world, calm;
      s := NOTHING;
      c := Params(world, [], [], 1, 0);
      status, held, failed, cancelled, outcomes, busy := [], 0, [], false, [], false;
      faulty, log, origin := false, [], NOTHING;
      new;
      assert forall leaf :: SP.LeafClosed(w, s.entries, leaf);
      assert forall a, b :: SP.MarkerHonest(w, s.entries, a, b);
    }

    ghost predicate Valid()
      reads this
    {
      IndexRoundTrip(w) && SP.Inv(w, s)
    }

    /** Any number of steps of processes that do not belong to this client. */
    method Others(base: Pid)
      requires Valid()
      modifies this`s
      ensures Valid() && SP.Grows(old(s.entries), s.entries) && SameOwn(old(s), s, base)
    {
      var run: seq<(Pid, SP.Event)> := *;
      if (forall i | 0 <= i < |run| :: run[i].0 < base) && SP.Exec(w, s, run).Some? {
        RunKeepsInv(w, s, run);
        OthersLeaveOwn(w, s, run, base);
        s := SP.Exec(w, s, run).value;
      }
    }

    // -------------------------------------------------------------------------------------------
    // Planning

    /** HasBlob, while others use the store; None when the call fails. */
    method Probe(d: Digest, base: Pid) returns (has: Option<bool>)
      requires Valid() && OwnIdle(s, base)
      modifies this`s
      ensures Valid() && OwnIdle(s, base) && SP.Grows(old(s.entries), s.entries) && SameOwn(old(s), s, base)
      ensures has.Some? ==> ValidDigest(d) && (has.value <==> SP.BlobEntry(d) in s.entries)
      ensures calm && ValidDigest(d) ==> has.Some?
    {
      Others(base);
      var reachable: bool := *;
      has := if (reachable || calm) && ValidDigest(d) then Some(SP.BlobEntry(d) in s.entries) else None;
    }

    /** Splits the image's blobs into those the store lacks and those it holds, while others use it. */
    method Diff(img: Image, base: Pid) returns (e: Option<Entry>)
      requires Valid() && OwnIdle(s, base)
      modifies this`s
      ensures Valid() && OwnIdle(s, base) && SP.Grows(old(s.entries), s.entries) && SameOwn(old(s), s, base)
      ensures e.Some? ==> e.value.image == img && Diffed(w, s.entries, e.value) && Nameable(w, img)
      ensures calm && Nameable(w, img) ==> e.Some?
      // Both lists: the layers in the manifest's order, then the config, then the manifest.
      ensures e.Some? ==> DependenciesFirst(w, e.value)
      ensures e.Some? ==> forall d | d in e.value.missing :: SP.BlobEntry(d.digest) !in old(s.entries)
    {
      var blobs := ImageBlobs(w, img);
      if blobs.None? {
        return None;
      }
      var descs, missing, present := blobs.value, [], [];
      ImageBlobsAre(w, img);
      ghost var start := s.entries;
      for i := 0 to |descs|
        invariant Valid() && OwnIdle(s, base) && SP.Grows(start, s.entries) && SameOwn(old(s), s, base)
        invariant Probed(start, s.entries, descs[..i], missing, present)
      {
        ghost var es := s.entries;
        var has := Probe(descs[i].digest, base);
        if has.None? {
          return None;
        }
        assert descs[..i + 1] == descs[..i] + [descs[i]];
        ProbedNext(start, es, s.entries, descs[..i], missing, present, descs[i], has.value);
        if has.value {
          present := present + [descs[i]];
        } else {
          missing := missing + [descs[i]];
        }
      }
      assert descs[..|descs|] == descs;
      e := Some(Entry(img, missing, present));
      SplitIsInOrder(w, e.value);
    }

    /** The plan entry or the failure that answers one request. */
    method PlanOne(src: Source, ref: Reference, p: Platform, base: Pid) returns (e: Option<Entry>, failure: Err)
      requires Valid() && OwnIdle(s, base) && SourceOK(src)
      modifies this`s
      ensures Valid() && OwnIdle(s, base) && SP.Grows(old(s.entries), s.entries) && SameOwn(old(s), s, base)
      ensures e.Some? ==> KeyOf(e.value) == (ref, p) && PlannedFrom(w, s.entries, src, e.value)
      ensures e.None? ==> failure.EntryFailure? && (failure.ref, failure.platform) == (ref, p)
      ensures calm ==> (e.Some? <==> Plannable(w, src, (ref, p)))
    {
      e, failure := None, EntryFailure(ref, p, Wrapped(Plain(Unresolved)));
      var reachable: bool := *;
      if (reachable || calm) && src(ref, p).Some? {
        e := Diff(src(ref, p).value, base);
        failure := EntryFailure(ref, p, Wrapped(Plain(NotDiffed)));
      }
    }

    /**
     * PlanPush: every request of a reference that parsed is answered, in order, by a plan entry or by a
     * failure that names it; a reference that did not parse is a failure of its own.
     */
    method PlanPush(
        src: Source, refs: seq<Option<Reference>>, platforms: seq<Platform>, host: Platform, base: Pid)
      returns (plan: seq<Entry>, errs: seq<Err>)
      requires Valid() && OwnIdle(s, base) && SourceOK(src)
      modifies this`s
      ensures Valid() && OwnIdle(s, base) && SP.Grows(old(s.entries), s.entries) && SameOwn(old(s), s, base)
      ensures platforms != [] ==>
        PlanOK(w, s.entries, src, calm, Requests(Known(refs), platforms), plan, errs, None in refs)
      ensures platforms == [] ==>
        PlanOK(w, s.entries, src, calm, Requests(Known(refs), [host]), plan, errs, None in refs)
    {
      var wanted := Wanted(platforms, host);
      plan, errs := [], [];
      for i := 0 to |refs|
        invariant Valid() && OwnIdle(s, base) && SP.Grows(old(s.entries), s.entries) && SameOwn(old(s), s, base)
        invariant PlanOK(w, s.entries, src, calm, Requests(Known(refs[..i]), wanted), plan, errs, None in refs)
      {
        KnownNext(refs, i, wanted);
        if refs[i].None? {
          BadReferenceNext(w, s.entries, src, calm, Requests(Known(refs[..i]), wanted), plan, errs);
          errs := errs + [Plain(BadReference)];
        } else {
          plan, errs := PlanRef(
            src, refs[i].value, wanted, base, plan, errs, Requests(Known(refs[..i]), wanted), None in refs);
        }
      }
      assert refs[..|refs|] == refs;
    }

    /** One request more than `before`. */
    method Answer(
        src: Source, ref: Reference, p: Platform, base: Pid, plan0: seq<Entry>, errs0: seq<Err>,
        ghost before: seq<Request>, ghost unparsed: bool)
      returns (plan: seq<Entry>, errs: seq<Err>)
      requires Valid() && OwnIdle(s, base) && SourceOK(src)
      requires PlanOK(w, s.entries, src, calm, before, plan0, errs0, unparsed)
      modifies this`s
      ensures Valid() && OwnIdle(s, base) && SP.Grows(old(s.entries), s.entries) && SameOwn(old(s), s, base)
      ensures PlanOK(w, s.entries, src, calm, before + [(ref, p)], plan, errs, unparsed)
    {
      var e, failure := PlanOne(src, ref, p, base);
      PlanNext(w, old(s.entries), s.entries, src, calm, before, plan0, errs0, unparsed, (ref, p), e, failure);
      plan, errs := plan0 + Opt(e), if e.None? then errs0 + [failure] else errs0;
    }

    /** PlanPush's inner loop: one reference for every platform. */
    method PlanRef(
        src: Source, ref: Reference, platforms: seq<Platform>, base: Pid, plan0: seq<Entry>, errs0: seq<Err>,
        ghost before: seq<Request>, ghost unparsed: bool)
      returns (plan: seq<Entry>, errs: seq<Err>)
      requires Valid() && OwnIdle(s, base) && SourceOK(src)
      requires PlanOK(w, s.entries, src, calm, before, plan0, errs0, unparsed)
      modifies this`s
      ensures Valid() && OwnIdle(s, base) && SP.Grows(old(s.entries), s.entries) && SameOwn(old(s), s, base)
      ensures PlanOK(w, s.entries, src, calm, before + Pairs(ref, platforms), plan, errs, unparsed)
    {
      plan, errs := plan0, errs0;
      ghost var done := before;
      for j := 0 to |platforms|
        invariant Valid() && OwnIdle(s, base) && SP.Grows(old(s.entries), s.entries) && SameOwn(old(s), s, base)
        invariant done == before + Pairs(ref, platforms)[..j]
        invariant PlanOK(w, s.entries, src, calm, done, plan, errs, unparsed)
      {
        plan, errs := Answer(src, ref, platforms[j], base, plan, errs, done, unparsed);
        done := done + [(ref, platforms[j])];
      }
      assert Pairs(ref, platforms)[..|platforms|] == Pairs(ref, platforms);
    }

    // -------------------------------------------------------------------------------------------
    // Push

    ghost function Now(): Snap
      reads this
    {
      Snap(s, status, held, failed, cancelled, outcomes, busy, faulty)
    }

    /** What was done since the push began is a run of the push machine that ends here. */
    ghost predicate Ran()
      reads this
    {
      && PS.Reaches(c, origin, log, Now()) && c.w == w
      && (calm ==> !faulty && !cancelled)
    }

    /** The run goes on with one action. */
    lemma RanOn(c: Params, log: seq<Action>, before: Snap, act: Action, after: Snap)
      requires PS.Reaches(c, origin, log, before) && Step(c, before, act) == Some(after)
      ensures PS.Reaches(c, origin, log + [act], after)
    {
      PS.ExecNext(c, Start(c, origin), log, act);
    }

    /** What the run says about the process of one worker, and about the committer's. */
    lemma WorkerIs(i: nat)
      requires Ran() && i < |status|
      ensures |status| == |c.uploads| && WorkerAt(c, i, status[i], s.Phase(Worker(c, i)))
    {
      PS.ReachesPInv(c, origin, log, Now());
    }

    lemma CommitterIs()
      requires Ran()
      ensures !busy ==> s.Phase(Committer(c)).Over()
      ensures busy ==> s.Phase(Committer(c)).Commits() && !s.Phase(Committer(c)).Over()
    {
      PS.ReachesPInv(c, origin, log, Now());
    }

    lemma StoreIs()
      requires Ran()
      ensures Valid() && SP.Grows(origin.entries, s.entries)
      ensures held == Total(InFlight, status) && |status| == |c.uploads|
    {
      PS.ReachesPInv(c, origin, log, Now());
    }

    /** Other processes move, and the context may be cancelled. */
    method Elsewhere()
      requires Ran()
      modifies this`s, this`cancelled, this`log
      ensures Ran() && SP.Grows(old(s.entries), s.entries) && SameOwn(old(s), s, c.base)
    {
      var cancel: bool := *;
      if cancel && !calm {
        ghost var before := Now();
        cancelled := true;
        RanOn(c, log, before, Cancel, Now());
        log := log + [Cancel];
      }
      var events: seq<(Pid, SP.Event)> := *;
      for k := 0 to |events|
        invariant Ran() && SP.Grows(old(s.entries), s.entries) && SameOwn(old(s), s, c.base)
      {
        if events[k].0 < c.base && SP.Step(w, s, events[k].0, events[k].1).Some? {
          Strange(events[k].0, events[k].1);
        }
      }
    }

    /** One step of a process that does not belong to this client. */
    method Strange(p: Pid, e: SP.Event)
      requires Ran() && p < c.base && SP.Step(w, s, p, e).Some?
      modifies this`s, this`log
      ensures Ran() && SP.Grows(old(s.entries), s.entries) && SameOwn(old(s), s, c.base)
    {
      StoreIs();
      StepIsLocal(w, s, p, e);
      ghost var before := Now();
      s := SP.Step(w, s, p, e).value;
      RanOn(c, log, before, Foreign(p, e), Now());
      log := log + [Foreign(p, e)];
    }

    /** The loop takes a token, which it can while one is free, and starts the next upload. */
    method StartUpload(i: nat)
      requires Ran() && i == NextQueued(status) < |status| && held < c.capacity
      modifies this`status, this`held, this`log
      ensures Ran() && Total(StepsLeft, status) < old(Total(StepsLeft, status)) && |status| == old(|status|)
    {
      ghost var before := Now();
      UpdateShrinks(status, i, Reading);
      held := held + 1;
      status := status[i := Reading];
      RanOn(c, log, before, Acquire, Now());
      log := log + [Acquire];
    }

    /** A worker is done and gives its token back. */
    method End(i: nat, ok: bool)
      requires i < |status| && status[i] != Ended
      modifies this`status, this`held, this`failed
      ensures Now() == Finish(old(Now()), i, ok)
      ensures Total(StepsLeft, status) < old(Total(StepsLeft, status))
    {
      UpdateShrinks(status, i, Ended);
      status := status[i := Ended];
      held := if held > 0 then held - 1 else 0;
      if !ok {
        failed := failed + [i];
      }
    }

    /** putBlob up to the store: open the blob at the source, begin PutBlob. */
    method OpenBlob(i: nat)
      requires Ran() && i < |status| && status[i].Reading?
      modifies this`s, this`status, this`held, this`failed, this`faulty, this`log
      ensures Ran() && Total(StepsLeft, status) < old(Total(StepsLeft, status)) && |status| == old(|status|)
    {
      WorkerIs(i);
      ghost var before := Now();
      var works := Opened(i);
      RanOn(c, log, before, Open(i, works), Now());
      log := log + [Open(i, works)];
    }

    method Opened(i: nat) returns (works: bool)
      requires i < |status| && status[i].Reading? && c.w == w && s.Phase(Worker(c, i)).Over()
      modifies this`s, this`status, this`held, this`failed, this`faulty
      ensures Step(c, old(Now()), Open(i, works)) == Some(Now()) && |status| == old(|status|)
      ensures Total(StepsLeft, status) < old(Total(StepsLeft, status))
      ensures faulty == (old(faulty) || !works) && (calm ==> works)
    {
      works := *;
      works := works || calm;
      faulty := faulty || !works;
      if !works || !Readable(c, i) {
        End(i, false);
      } else {
        s := SP.Step(w, s, Worker(c, i), SP.BeginPut(c.uploads[i].desc, Body(c, i))).value;
        ProbeOrEnd(i);
      }
    }

    method ProbeOrEnd(i: nat)
      requires i < |status| && status[i].Reading?
      modifies this`status, this`held, this`failed
      ensures Now() == AfterOpen(c, old(Now()), i) && |status| == old(|status|)
      ensures Total(StepsLeft, status) < old(Total(StepsLeft, status))
    {
      if s.Phase(Worker(c, i)).AtProbe? {
        UpdateShrinks(status, i, Probing);
        status := status[i := Probing];
      } else {
        End(i, false);
      }
    }

    /** How the backend answers this client's next call. */
    method Fate() returns (e: SP.Event)
      ensures IsCall(e) && (calm ==> e.CallReturns?)
    {
      e := *;
      if calm || !IsCall(e) {
        e := SP.CallReturns;
      }
    }

    /** The next backend call of a worker inside PutBlob. */
    method CallStore(i: nat)
      requires Ran() && i < |status| && (status[i].Probing? || status[i].Creating?)
      modifies this`s, this`status, this`held, this`failed, this`faulty, this`log
      ensures Ran() && Total(StepsLeft, status) < old(Total(StepsLeft, status)) && |status| == old(|status|)
    {
      WorkerIs(i);
      ghost var before := Now();
      var e := Called(i);
      RanOn(c, log, before, Store(i, e), Now());
      log := log + [Store(i, e)];
    }

    method Called(i: nat) returns (e: SP.Event)
      requires i < |status| && c.w == w
      requires if status[i].Probing? then s.Phase(Worker(c, i)).AtProbe?
        else status[i].Creating? && s.Phase(Worker(c, i)).AtCreate?
      modifies this`s, this`status, this`held, this`failed, this`faulty
      ensures Step(c, old(Now()), Store(i, e)) == Some(Now()) && |status| == old(|status|)
      ensures Total(StepsLeft, status) < old(Total(StepsLeft, status))
      ensures faulty == (old(faulty) || !e.CallReturns?) && (calm ==> e.CallReturns?)
    {
      e := Fate();
      faulty := faulty || !e.CallReturns?;
      WorkerCallEnds(w, s, Worker(c, i), e);
      s := SP.Step(w, s, Worker(c, i), e).value;
      CreateOrEnd(i);
    }

    method CreateOrEnd(i: nat)
      requires i < |status| && (status[i].Probing? || (status[i].Creating? && !s.Phase(Worker(c, i)).AtCreate?))
      modifies this`status, this`held, this`failed
      ensures Now() == AfterStore(c, old(Now()), i) && |status| == old(|status|)
      ensures Total(StepsLeft, status) < old(Total(StepsLeft, status))
    {
      var ph := s.Phase(Worker(c, i));
      if ph.AtCreate? {
        UpdateShrinks(status, i, Creating);
        status := status[i := Creating];
      } else {
        End(i, ph.Put? && ph.stored.Ok?);
      }
    }

    /** Any upload in flight may be the next to move. */
    method MoveUpload()
      requires Ran() && Total(InFlight, status) > 0
      modifies this`s, this`status, this`held, this`failed, this`faulty, this`log
      ensures Ran() && Total(StepsLeft, status) < old(Total(StepsLeft, status)) && |status| == old(|status|)
    {
      ghost var k := SomeInFlight(status);
      var i: nat :| i < |status| && !status[i].Queued? && !status[i].Ended?;
      if status[i].Reading? {
        OpenBlob(i);
      } else {
        CallStore(i);
      }
    }

    /** Push's upload phase: start uploads while tokens are free, and wait for all of them. */
    method UploadAll()
      requires Ran() && |status| == |c.uploads| && outcomes == [] && !busy
      modifies this`s, this`status, this`held, this`failed, this`cancelled, this`faulty, this`log
      ensures Ran() && AllEnded(status) && |status| == |c.uploads|
    {
      while Total(StepsLeft, status) > 0
        invariant Ran() && |status| == |c.uploads|
        decreases Total(StepsLeft, status)
      {
        Elsewhere();
        StoreIs();
        var i := NextQueued(status);
        var eager: bool := *;
        if i < |status| && held < c.capacity && (eager || held == 0) {
          StartUpload(i);
        } else {
          if i == |status| {
            SomethingMoves(status);
          }
          MoveUpload();
        }
      }
      NoneLeft(status);
    }

    /** One entry: passed over when the context is done, committed otherwise. */
    method CommitNext()
      requires Ran() && AtCommit(c, Now())
      modifies this`s, this`cancelled, this`outcomes, this`busy, this`faulty, this`log
      ensures Ran() && !busy && |outcomes| == old(|outcomes|) + 1
    {
      if cancelled {
        ghost var before := Now();
        outcomes := outcomes + [Skipped];
        RanOn(c, log, before, Skip, Now());
        log := log + [Skip];
        return;
      }
      EnterCommit();
      while busy
        invariant Ran() && |outcomes| == old(|outcomes|) + (if busy then 0 else 1)
        decreases busy, StoreModel.Stage(s.Phase(Committer(c))), StoreModel.Left(s.Phase(Committer(c)))
      {
        Elsewhere();
        CallCommit();
      }
    }

    method EnterCommit()
      requires Ran() && AtCommit(c, Now()) && !cancelled
      modifies this`s, this`outcomes, this`busy, this`log
      ensures Ran() && |outcomes| == old(|outcomes|) + (if busy then 0 else 1)
    {
      CommitterIs();
      ghost var before := Now();
      s := SP.Step(w, s, Committer(c), SP.BeginCommit(JobOf(c.plan[|outcomes|].image))).value;
      AnswerOrGoOn();
      RanOn(c, log, before, BeginCommit, Now());
      log := log + [BeginCommit];
    }

    /** Push's commit phase: entry by entry. */
    method CommitAll()
      requires Ran() && AllEnded(status) && |status| == |c.uploads| && !busy && outcomes == []
      modifies this`s, this`cancelled, this`outcomes, this`busy, this`faulty, this`log
      ensures Ran() && Complete(c, Now())
    {
      while |outcomes| < |c.plan|
        invariant Ran() && !busy && |outcomes| <= |c.plan|
      {
        Elsewhere();
        CommitNext();
      }
    }

    /** Commit has answered, or goes on with its next call. */
    method AnswerOrGoOn()
      modifies this`outcomes, this`busy
      ensures Now() == AfterCommit(c, old(Now()))
    {
      var ph := s.Phase(Committer(c));
      busy := !ph.Committed?;
      if ph.Committed? {
        outcomes := outcomes + [Done(ph.result)];
      }
    }

    /** The committer's next backend call. */
    method CallCommit()
      requires Ran() && busy
      modifies this`s, this`outcomes, this`busy, this`faulty, this`log
      ensures Ran() && |outcomes| == old(|outcomes|) + (if busy then 0 else 1)
      ensures busy ==> StoreModel.Shrinks(old(s.Phase(Committer(c))), s.Phase(Committer(c)))
    {
      CommitterIs();
      ghost var before := Now();
      var e := CommitCalled();
      RanOn(c, log, before, CommitCall(e), Now());
      log := log + [CommitCall(e)];
    }

    method CommitCalled() returns (e: SP.Event)
      requires busy && c.w == w && s.Phase(Committer(c)).Commits() && !s.Phase(Committer(c)).Over()
      modifies this`s, this`outcomes, this`busy, this`faulty
      ensures Step(c, old(Now()), CommitCall(e)) == Some(Now())
      ensures |outcomes| == old(|outcomes|) + (if busy then 0 else 1)
      ensures faulty == (old(faulty) || !e.CallReturns?) && (calm ==> e.CallReturns?)
      ensures busy ==> StoreModel.Shrinks(old(s.Phase(Committer(c))), s.Phase(Committer(c)))
    {
      e := Fate();
      faulty := faulty || !e.CallReturns?;
      CommitterCallEnds(w, s, Committer(c), e);
      s := SP.Step(w, s, Committer(c), e).value;
      AnswerOrGoOn();
    }

    /** The joined error of a push that is over. */
    method Joined() returns (err: Option<Err>)
      requires Ran() && Complete(c, Now())
      ensures Valid() && OwnIdle(s, c.base) && SP.Grows(origin.entries, s.entries)
      ensures ErrorsOf(c, Now(), Leaves(err)) && (err.None? <==> Leaves(err) == [])
    {
      StoreIs();
      PS.ReachesPInv(c, origin, log, Now());
      ErrorsAreThere(c, Now());
      CompleteIsIdle(c, origin.entries, Now());
      var errs := UploadErrs(c, failed) + CommitErrs(c.plan, outcomes);
      err := Join(errs);
      ErrorLeaves(c, Now(), errs);
    }

    /** Collects the uploads; the run starts here. */
    method Begin(plan: seq<Entry>, limit: int, base: Pid)
      requires Valid() && OwnIdle(s, base)
      modifies this
      ensures s == old(s) && c == Params(w, plan, Firsts(AllMissing(plan)), if limit <= 0 then 4 else limit, base)
      ensures Ran() && origin == s && |status| == |c.uploads| && outcomes == [] && !busy
    {
      var uploads := CollectUploads(plan);
      Reset(Params(w, plan, uploads, if limit <= 0 then 4 else limit, base));
      FreshRun(c, s);
    }

    method Reset(params: Params)
      modifies this
      ensures s == old(s) && c == params && log == [] && origin == s && Now() == Start(c, s)
    {
      c, log, origin := params, [], s;
      status, held, failed := seq(|params.uploads|, _ => Queued), 0, [];
      cancelled, outcomes, busy, faulty := false, [], false, false;
    }

    /**
     * Push: uploads the missing blobs and commits each leaf; an entry's failure does not stop others.
     *
     * The log is a complete run of the push machine from the store as it was, and the error's leaves are
     * what that run ended with, so every theorem about such runs speaks of this call. The rest spells out
     * the main ones.
     */
    method Push(plan: seq<Entry>, limit: int, base: Pid) returns (err: Option<Err>)
      requires Valid() && OwnIdle(s, base)
      modifies this
      ensures Valid() && OwnIdle(s, base) && SP.Grows(old(s.entries), s.entries)
      ensures c == Params(w, plan, Firsts(AllMissing(plan)), if limit <= 0 then 4 else limit, base)
      ensures origin == old(s) && PS.Reaches(c, origin, log, Now())
      ensures Complete(c, Now()) && ErrorsOf(c, Now(), Leaves(err))
      ensures calm ==> !faulty && !cancelled
      // Tokens bound the uploads in flight at all times, and each upload starts once, in order.
      ensures PS.Bounded(c, origin, log)
      ensures var starts := PS.Starts(c, Start(c, origin), log);
        |starts| == |c.uploads| && forall k | 0 <= k < |starts| :: starts[k] == k
      // Each entry has a failure that names it or a leaf holding its manifest; each failure names an entry.
      ensures forall i | 0 <= i < |plan| :: PS.Settled(w, s.entries, Leaves(err), plan[i])
      ensures forall x | x in Leaves(err) :: PS.NamesOne(x, plan)
      ensures err.None? <==> Leaves(err) == []
      // Entries that are in order and got their blobs can only be cancelled, conflict or hit the backend.
      ensures CollisionFree(w.hash) ==>
        forall q: Request | PS.Fit(c, origin.entries, Leaves(err), q) :: PS.OnlyTransient(Leaves(err), q)
      // The manifest of an entry none of whose uploads failed has its config and layers beside it.
      ensures CollisionFree(w.hash) ==>
        forall e | e in plan && Covered(w, origin.entries, e) && PS.NoUploadFailed(Leaves(err), e) ::
          PS.EntryClosed(w, s.entries, e)
      // With one worker and no failed upload no state of the run has a stored manifest without its parts.
      ensures Sequential(c, origin, log, Now()) && BareClosed(w, origin.entries) ==>
        ClosedThroughout(c, Start(c, origin), log)
    {
      Begin(plan, limit, base);
      UploadAll();
      CommitAll();
      err := Joined();
      SequentialPushKeepsClosed(c, origin, log, Now());
      PS.RunsAreBounded(c, origin, log, Now());
      PS.EachUploadStartsOnce(c, origin, log, Now());
      PS.EveryEntrySettles(c, origin, log, Now(), Leaves(err));
      PS.EveryErrorNamesAnEntry(c, Now(), Leaves(err));
      if CollisionFree(w.hash) {
        forall q: Request | PS.Fit(c, origin.entries, Leaves(err), q) ensures PS.OnlyTransient(Leaves(err), q) {
          PS.EntriesInOrderDoNotFail(c, origin, log, Now(), Leaves(err), q);
        }
        forall e | e in plan && Covered(w, origin.entries, e) && PS.NoUploadFailed(Leaves(err), e)
          ensures PS.EntryClosed(w, s.entries, e)
        {
          var k :| 0 <= k < |plan| && plan[k] == e;
          PS.UploadedIsClosed(c, origin, log, Now(), Leaves(err), k);
        }
      }
    }
  }

  lemma ErrorsAreThere(c: Params, a: Snap)
    requires c.uploads == Firsts(AllMissing(c.plan)) && FailedOK(c, a) && Complete(c, a)
    ensures forall k | 0 <= k < |a.failed| :: a.failed[k] < |c.uploads| && c.uploads[a.failed[k]].entry < |c.plan|
  {
    UploadsAreTheMissing(c.plan, c.uploads);
    forall k | 0 <= k < |a.failed| ensures a.failed[k] < |c.uploads| {
      assert a.failed[k] in a.failed;
    }
  }
}
