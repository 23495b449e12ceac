/** A push with one worker at a time: shared/blobs stays closed all along, because blobs go up dependencies first. */
module PushClosure {
  import opened Content
  import opened ImageModel
  import SP = StoreProtocol
  import opened Planning
  import opened PushProtocol
  import opened PushInvariant
  import opened PushSafety
  import opened BareManifests

  /** Of the blobs of an image that its source has, only the manifest is a manifest. */
  ghost predicate OneManifest(w: World, img: Image, m: Manifest) {
    && (forall i | 0 <= i < |m.layers| && m.layers[i].digest in img.dir ::
          AsManifest(w, img.dir[m.layers[i].digest]).None?)
    && (m.config.digest in img.dir ==> AsManifest(w, img.dir[m.config.digest]).None?)
  }

  /** A planned entry: dependencies first, the present blobs stored, one manifest. */
  ghost predicate Orderly(w: World, es: SP.Entries, e: Entry) {
    && DependenciesFirst(w, e) && AllStored(es, e.present)
    && OneManifest(w, e.image, w.manifest(e.image.dir[e.image.manifest.digest]).value)
  }

  ghost predicate AllOrderly(c: Params, es: SP.Entries) {
    forall k | 0 <= k < |c.plan| :: Orderly(c.w, es, c.plan[k])
  }

  // ---------------------------------------------------------------------------------------------
  // One upload at a time

  lemma {:induction false} CountedOnce(status: seq<Status>, i: nat, j: nat)
    requires i < j < |status| && InFlight(status[i]) == 1 && InFlight(status[j]) == 1
    ensures Total(InFlight, status) >= 2
    decreases |status|
  {
    var n := |status| - 1;
    if j < n {
      CountedOnce(status[..n], i, j);
    } else if Total(InFlight, status[..n]) == 0 {
      NothingInFlight(status[..n], i);
    }
  }

  /** With one token, the uploads before the one in flight have ended. */
  lemma EarlierHaveEnded(c: Params, a: Snap, i: nat, j: nat)
    requires TokensOK(c, a) && c.capacity == 1 && j < i < |a.status| && InFlight(a.status[i]) == 1
    ensures a.status[j].Ended?
  {
    if InFlight(a.status[j]) == 1 {
      CountedOnce(a.status, j, i);
    }
  }

  lemma EarlierIsStored(c: Params, start: SP.Entries, a: Snap, i: nat, d: Descriptor)
    requires PInv(c, start, a) && c.uploads == Firsts(AllMissing(c.plan)) && c.capacity == 1 && a.failed == []
    requires i < |c.uploads| && InFlight(a.status[i]) == 1 && c.uploads[i].entry < |c.plan|
    requires var missing := c.plan[c.uploads[i].entry].missing;
      d in missing && OnlyBefore(missing, d, c.uploads[i].desc)
    ensures SP.BlobEntry(d.digest) in a.s.entries
  {
    var j := EarlierIsUploaded(c.plan, c.uploads, i, d);
    EarlierHaveEnded(c, a, i, j);
    assert j !in a.failed;
  }

  // ---------------------------------------------------------------------------------------------
  // A manifest goes up after its parts

  /** In the missing blobs of an entry the manifest comes last, and is none of the parts. */
  lemma ManifestIsLast(w: World, e: Entry, m: Manifest, d: Descriptor)
    requires DependenciesFirst(w, e) && w.manifest(e.image.dir[e.image.manifest.digest]) == Some(m)
    requires PartOf(m, d) && d != e.image.manifest && !PartOf(m, e.image.manifest)
    ensures d in e.missing || d in e.present
    ensures OnlyBefore(e.missing, d, e.image.manifest)
  {
    var layers, others, config, last :|
      OrderedBy(m, e.image.manifest, e.missing, e.present, layers, others, config, last);
    SplitMembers(m.layers, layers, others);
    var front := layers + (if config then [m.config] else []);
    forall r: nat | r < |front| ensures front[r] != e.image.manifest {
      assert front[r] in layers || front[r] == m.config;
    }
  }

  lemma SplitMembers(all: seq<Descriptor>, a: seq<Descriptor>, b: seq<Descriptor>)
    requires IsSplit(all, a, b)
    ensures forall d :: d in all <==> d in a || d in b
  {
    SplitConserves(all, a, b);
    forall d ensures d in all <==> d in a || d in b {
      assert d in all <==> d in multiset(all);
      assert d in multiset(all) <==> multiset(a)[d] + multiset(b)[d] > 0;
    }
  }

  /** A missing blob that decodes as a manifest is the manifest of its entry's image. */
  lemma ManifestIsItself(w: World, es: SP.Entries, e: Entry, d: Descriptor)
    requires Orderly(w, es, e) && d in e.missing && d.digest in e.image.dir
    requires AsManifest(w, e.image.dir[d.digest]).Some?
    ensures d == e.image.manifest
    ensures !PartOf(w.manifest(e.image.dir[e.image.manifest.digest]).value, e.image.manifest)
  {
    MissingIsPart(w, e, d);
  }

  lemma UploadIsManifest(c: Params, start: SP.Entries, i: nat)
    requires c.uploads == Firsts(AllMissing(c.plan)) && AllOrderly(c, start) && Readable(c, i)
    requires AsManifest(c.w, Body(c, i)).Some?
    ensures var img := c.plan[c.uploads[i].entry].image;
      && c.uploads[i].desc == img.manifest
      && AsManifest(c.w, Body(c, i)) == c.w.manifest(img.dir[img.manifest.digest])
      && !PartOf(AsManifest(c.w, Body(c, i)).value, img.manifest)
  {
    UploadsAreTheMissing(c.plan, c.uploads);
    ManifestIsItself(c.w, start, c.plan[c.uploads[i].entry], c.uploads[i].desc);
  }

  lemma MissingIsPart(w: World, e: Entry, d: Descriptor)
    requires DependenciesFirst(w, e) && d in e.missing
    ensures PartOf(w.manifest(e.image.dir[e.image.manifest.digest]).value, d) || d == e.image.manifest
  {
    var m := w.manifest(e.image.dir[e.image.manifest.digest]).value;
    var layers, others, config, last :|
      OrderedBy(m, e.image.manifest, e.missing, e.present, layers, others, config, last);
    SplitMembers(m.layers, layers, others);
  }

  lemma PartIsStored(c: Params, start: SP.Entries, a: Snap, i: nat, m: Manifest, d: Descriptor)
    requires ParamsOK(c) && PInv(c, start, a) && c.capacity == 1 && a.failed == [] && AllOrderly(c, start)
    requires Readable(c, i) && InFlight(a.status[i]) == 1 && AsManifest(c.w, Body(c, i)) == Some(m) && PartOf(m, d)
    ensures SP.BlobEntry(d.digest) in a.s.entries
  {
    UploadIsManifest(c, start, i);
    var e := c.plan[c.uploads[i].entry];
    assert Orderly(c.w, start, e);
    ManifestIsLast(c.w, e, m, d);
    if d in e.missing {
      EarlierIsStored(c, start, a, i, d);
    } else {
      PresentIsStored(c, start, a, c.uploads[i].entry, d);
    }
  }

  /** So the call of a worker that stores a manifest finds its parts stored. */
  lemma WorkerFits(c: Params, start: SP.Entries, a: Snap, i: nat)
    requires ParamsOK(c) && PInv(c, start, a) && c.capacity == 1 && a.failed == [] && AllOrderly(c, start)
    requires i < |a.status| && (a.status[i].Probing? || a.status[i].Creating?)
    ensures PartsFirst(c.w, a.s.entries, a.s.Phase(Worker(c, i)))
  {
    assert WorkerAt(c, i, a.status[i], a.s.Phase(Worker(c, i)));
    if a.status[i].Creating? && AsManifest(c.w, Body(c, i)).Some? {
      var m := AsManifest(c.w, Body(c, i)).value;
      forall d | PartOf(m, d) ensures SP.BlobEntry(d.digest) in a.s.entries {
        PartIsStored(c, start, a, i, m, d);
      }
      assert PartOf(m, m.config);
      forall k | 0 <= k < |m.layers| ensures SP.BlobEntry(m.layers[k].digest) in a.s.entries {
        assert PartOf(m, m.layers[k]);
      }
    }
  }

  // ---------------------------------------------------------------------------------------------
  // Runs

  /** Whoever else uses the store stores no manifest before its parts. */
  ghost predicate StrangerFits(c: Params, a: Snap, act: Action) {
    act.Foreign? && (act.e.CallReturns? || act.e.CallLies?) ==> PartsFirst(c.w, a.s.entries, a.s.Phase(act.p))
  }

  ghost predicate StrangersFit(c: Params, a: Snap, log: seq<Action>)
    decreases |log|
  {
    log == [] || (
      && StrangerFits(c, a, log[0])
      && (Step(c, a, log[0]).Some? ==> StrangersFit(c, Step(c, a, log[0]).value, log[1..])))
  }

  /** One step of a process in the store. */
  lemma CallKeepsClosed(w: World, s: State, p: Pid, e: SP.Event)
    requires BareClosed(w, s.entries) && SP.Step(w, s, p, e).Some?
    requires e.CallReturns? || e.CallLies? ==> PartsFirst(w, s.entries, s.Phase(p))
    ensures BareClosed(w, SP.Step(w, s, p, e).value.entries)
  {
    CallKeepsBareClosed(w, s.entries, s.Phase(p));
  }

  /** Only a call in the store changes its entries. */
  lemma OthersKeepEntries(c: Params, a: Snap, act: Action)
    requires Step(c, a, act).Some? && !act.Foreign? && !act.Store? && !act.CommitCall?
    ensures Step(c, a, act).value.s.entries == a.s.entries
  {
  }

  lemma StoreKeepsClosed(c: Params, start: SP.Entries, a: Snap, i: nat, e: SP.Event)
    requires ParamsOK(c) && PInv(c, start, a) && c.capacity == 1 && a.failed == [] && AllOrderly(c, start)
    requires BareClosed(c.w, a.s.entries) && StoreStep(c, a, i, e).Some?
    ensures BareClosed(c.w, StoreStep(c, a, i, e).value.s.entries)
  {
    WorkerFits(c, start, a, i);
    CallKeepsClosed(c.w, a.s, Worker(c, i), e);
  }

  lemma CommitKeepsClosed(c: Params, start: SP.Entries, a: Snap, e: SP.Event)
    requires PInv(c, start, a) && BareClosed(c.w, a.s.entries) && CommitStep(c, a, e).Some?
    ensures BareClosed(c.w, CommitStep(c, a, e).value.s.entries)
  {
    CallKeepsClosed(c.w, a.s, Committer(c), e);
  }

  lemma StepKeepsClosed(c: Params, start: SP.Entries, a: Snap, act: Action)
    requires ParamsOK(c) && PInv(c, start, a) && c.capacity == 1 && a.failed == [] && AllOrderly(c, start)
    requires BareClosed(c.w, a.s.entries) && Step(c, a, act).Some? && StrangerFits(c, a, act)
    ensures BareClosed(c.w, Step(c, a, act).value.s.entries)
  {
    match act
    case Foreign(p, e) => CallKeepsClosed(c.w, a.s, p, e);
    case Store(i, e) => StoreKeepsClosed(c, start, a, i, e);
    case CommitCall(e) => CommitKeepsClosed(c, start, a, e);
    case _ => OthersKeepEntries(c, a, act);
  }

  lemma FailuresStay(c: Params, a: Snap, act: Action)
    requires Step(c, a, act).Some?
    ensures a.failed <= Step(c, a, act).value.failed
  {
  }

  lemma {:induction false} FailuresStayAll(c: Params, a: Snap, log: seq<Action>)
    requires Exec(c, a, log).Some?
    ensures a.failed <= Exec(c, a, log).value.failed
    decreases |log|
  {
    if log != [] {
      FailuresStay(c, a, log[0]);
      FailuresStayAll(c, Step(c, a, log[0]).value, log[1..]);
    }
  }

  /** shared/blobs is closed after each action of the log. */
  ghost predicate ClosedThroughout(c: Params, a: Snap, log: seq<Action>)
    decreases |log|
  {
    BareClosed(c.w, a.s.entries) &&
    (log == [] || (Step(c, a, log[0]).Some? && ClosedThroughout(c, Step(c, a, log[0]).value, log[1..])))
  }

  lemma {:induction false} RunKeepsClosed(c: Params, start: SP.Entries, a: Snap, log: seq<Action>)
    requires ParamsOK(c) && PInv(c, start, a) && c.capacity == 1 && AllOrderly(c, start)
    requires Exec(c, a, log).Some? && Exec(c, a, log).value.failed == []
    requires BareClosed(c.w, a.s.entries) && StrangersFit(c, a, log)
    ensures ClosedThroughout(c, a, log)
    decreases |log|
  {
    FailuresStayAll(c, a, log);
    if log != [] {
      StepKeepsPInv(c, start, a, log[0]);
      StepKeepsClosed(c, start, a, log[0]);
      RunKeepsClosed(c, start, Step(c, a, log[0]).value, log[1..]);
    }
  }

  /** One worker, no failed upload, entries in order, and nobody else stores a manifest before its parts. */
  ghost predicate Sequential(c: Params, s: State, log: seq<Action>, a: Snap) {
    c.capacity == 1 && a.failed == [] && AllOrderly(c, s.entries) && StrangersFit(c, Start(c, s), log)
  }

  /**
   * A push with concurrency one, of entries in order none of whose uploads fails, from a store whose
   * manifests all have their parts: they have them in every state of the run, crashes and cancellation
   * after any step included, as long as the store's other users keep to the same.
   */
  lemma SequentialPushKeepsClosed(c: Params, s: State, log: seq<Action>, a: Snap)
    requires Reaches(c, s, log, a)
    ensures Sequential(c, s, log, a) && BareClosed(c.w, s.entries) ==> ClosedThroughout(c, Start(c, s), log)
  {
    if Sequential(c, s, log, a) && BareClosed(c.w, s.entries) {
      StartOK(c, s);
      RunKeepsClosed(c, s.entries, Start(c, s), log);
    }
  }
}
