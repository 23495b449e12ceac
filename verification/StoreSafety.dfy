/** Whole runs of the store: closure, write-once, one winner per leaf, honest markers. */
module StoreSafety {
  import opened Content
  import opened ImageModel
  import opened StoreProtocol

  /** An empty store and no process. */
  const NOTHING: State := State(map[], map[])

  ghost predicate Reachable(w: World, s: State) {
    exists run :: Exec(w, NOTHING, run) == Some(s)
  }

  lemma {:induction false} RunKeepsInv(w: World, s: State, run: seq<(Pid, Event)>)
    requires IndexRoundTrip(w) && Inv(w, s) && Exec(w, s, run).Some?
    ensures Inv(w, Exec(w, s, run).value) && Grows(s.entries, Exec(w, s, run).value.entries)
    decreases |run|
  {
    if run != [] {
      StepKeepsInv(w, s, run[0].0, run[0].1);
      RunKeepsInv(w, Step(w, s, run[0].0, run[0].1).value, run[1..]);
    }
  }

  // ---------------------------------------------------------------------------------------------
  // Properties of the entries that depend on what the calls do

  /** `good` holds of the entries at the start of the run and after each of its events. */
  ghost predicate Throughout(w: World, s: State, run: seq<(Pid, Event)>, good: Entries -> bool) {
    forall k | 0 <= k <= |run| :: GoodAfter(w, s, run[..k], good)
  }

  ghost predicate GoodAfter(w: World, s: State, run: seq<(Pid, Event)>, good: Entries -> bool) {
    Exec(w, s, run).Some? && good(Exec(w, s, run).value.entries)
  }

  /** A call takes effect in this event. */
  predicate Acts(s: State, e: (Pid, Event)) {
    (e.1.CallReturns? || e.1.CallLies?) && !s.Phase(e.0).Over()
  }

  /** Every call that takes effect in the run does so in entries and a phase for which `fits` holds. */
  ghost predicate CallsFit(w: World, s: State, run: seq<(Pid, Event)>, fits: (Entries, Phase) -> bool)
    decreases |run|
  {
    run == [] || (
      && (Acts(s, run[0]) ==> fits(s.entries, s.Phase(run[0].0)))
      && Step(w, s, run[0].0, run[0].1).Some?
      && CallsFit(w, Step(w, s, run[0].0, run[0].1).value, run[1..], fits))
  }

  lemma {:induction false} ThroughoutNext(w: World, s: State, run: seq<(Pid, Event)>, good: Entries -> bool)
    requires run != [] && Step(w, s, run[0].0, run[0].1).Some?
    ensures Throughout(w, s, run, good) <==>
      good(s.entries) && Throughout(w, Step(w, s, run[0].0, run[0].1).value, run[1..], good)
  {
    var s' := Step(w, s, run[0].0, run[0].1).value;
    assert run[..0] == [];
    forall k | 0 < k <= |run| ensures GoodAfter(w, s, run[..k], good) <==> GoodAfter(w, s', run[1..][..k - 1], good) {
      assert run[..k][1..] == run[1..][..k - 1];
    }
    if Throughout(w, s, run, good) {
      forall k | 0 <= k <= |run[1..]| ensures GoodAfter(w, s', run[1..][..k], good) {
        assert GoodAfter(w, s, run[..k + 1], good);
      }
      assert GoodAfter(w, s, run[..0], good);
    }
  }

  lemma StepActs(w: World, s: State, e: (Pid, Event))
    requires Step(w, s, e.0, e.1).Some?
    ensures Step(w, s, e.0, e.1).value.entries == if Acts(s, e) then Call(w, s.entries, s.Phase(e.0)).0 else s.entries
  {
  }

  /** What each call keeps exactly when it fits, a run keeps all along exactly when its calls fit. */
  lemma {:induction false} ThroughoutIffCallsFit(
      w: World, s: State, run: seq<(Pid, Event)>, good: Entries -> bool, fits: (Entries, Phase) -> bool)
    requires forall es, ph | good(es) :: good(Call(w, es, ph).0) <==> fits(es, ph)
    requires good(s.entries) && Exec(w, s, run).Some?
    ensures Throughout(w, s, run, good) <==> CallsFit(w, s, run, fits)
    decreases |run|
  {
    if run == [] {
      assert run[..0] == [];
    } else {
      var s' := Step(w, s, run[0].0, run[0].1).value;
      StepActs(w, s, run[0]);
      ThroughoutNext(w, s, run, good);
      if good(s'.entries) {
        ThroughoutIffCallsFit(w, s', run[1..], good, fits);
      } else {
        assert run[1..][..0] == [];
        assert !GoodAfter(w, s', run[1..][..0], good);
      }
    }
  }

  lemma ReachableInv(w: World, s: State)
    requires IndexRoundTrip(w) && Reachable(w, s)
    ensures Inv(w, s)
  {
    var run :| Exec(w, NOTHING, run) == Some(s);
    assert forall leaf :: LeafClosed(w, NOTHING.entries, leaf);
    assert forall a, b :: MarkerHonest(w, NOTHING.entries, a, b);
    RunKeepsInv(w, NOTHING, run);
  }

  /**
   * Closure: in every reachable state an index.json names a stored manifest that matches its digest,
   * whose config and layers are stored, with no non-distributable layer and a matching platform; an
   * oci-layout with the layout document stands beside it and each (diffID, layer) pair has its marker,
   * an empty JSON object.
   */
  lemma LeavesAreClosed(w: World, s: State, leaf: Leaf) returns (job: Job, m: Manifest, cfg: Config)
    requires IndexRoundTrip(w) && Reachable(w, s) && IndexEntry(leaf) in s.entries
    ensures LayoutEntry(leaf) in s.entries && s.entries[LayoutEntry(leaf)] == w.layout
    ensures s.entries[IndexEntry(leaf)] == w.encodeIndex(job.ref, job.platform, job.manifest)
    ensures LeafManifest(w, s.entries, leaf) == Some(job.manifest) && job.Leaf() == leaf
    ensures job.manifest.mediaType in [
      "application/vnd.oci.image.manifest.v1+json", "application/vnd.docker.distribution.manifest.v2+json"]
    ensures ReadManifest(w, s.entries, job.manifest.digest) == Some(m)
    ensures ReadConfig(w, s.entries, m.config.digest) == Some(cfg)
    ensures leaf.platform.os == cfg.platform.os && leaf.platform.arch == cfg.platform.arch
    ensures leaf.platform.variant == cfg.platform.variant || leaf.platform.variant == "" || cfg.platform.variant == ""
    ensures |cfg.diffIDs| == |m.layers|
    ensures forall i | 0 <= i < |m.layers| ::
      && m.layers[i].mediaType !in [
        "application/vnd.oci.image.layer.nondistributable.v1.tar",
        "application/vnd.oci.image.layer.nondistributable.v1.tar+gzip",
        "application/vnd.oci.image.layer.nondistributable.v1.tar+zstd",
        "application/vnd.docker.image.rootfs.foreign.diff.tar.gzip"]
      && BlobEntry(m.layers[i].digest) in s.entries
      && w.hash(s.entries[BlobEntry(m.layers[i].digest)]) == m.layers[i].digest
      && MarkerEntry(cfg.diffIDs[i], m.layers[i].digest) in s.entries
      && s.entries[MarkerEntry(cfg.diffIDs[i], m.layers[i].digest)] == [123, 125]
  {
    ReachableInv(w, s);
    assert LeafClosed(w, s.entries, leaf);
    job, m, cfg :| PointsAt(w, s.entries, leaf, job, m, cfg);
  }

  /** A marker says that some stored manifest and config pair its blob with its diffID, both stored. */
  lemma MarkersAreHonest(w: World, s: State, diffID: Digest, blob: Digest)
    returns (d: Digest, m: Manifest, cfg: Config, i: nat)
    requires IndexRoundTrip(w) && Reachable(w, s) && MarkerEntry(diffID, blob) in s.entries
    ensures BlobEntry(blob) in s.entries && w.hash(s.entries[BlobEntry(blob)]) == blob
    ensures ReadManifest(w, s.entries, d) == Some(m) && ReadConfig(w, s.entries, m.config.digest) == Some(cfg)
    ensures i < |m.layers| == |cfg.diffIDs| && cfg.diffIDs[i] == diffID && m.layers[i].digest == blob
  {
    ReachableInv(w, s);
    assert MarkerHonest(w, s.entries, diffID, blob);
    var p;
    p, d, m, cfg, i :| Paired(w, s.entries, diffID, blob, p, d, m, cfg, i);
  }

  // ---------------------------------------------------------------------------------------------
  // One winner

  /** A commit that returned nil: its leaf holds its manifest then and in every later state. */
  lemma WinnerStays(w: World, s: State, run: seq<(Pid, Event)>, p: Pid, job: Job)
    requires IndexRoundTrip(w) && Reachable(w, s) && s.Phase(p) == Committed(job, Ok)
    requires Exec(w, s, run).Some?
    ensures Holds(w, s.entries, job.Leaf(), job.manifest.digest)
    ensures var later := Exec(w, s, run).value.entries;
      Holds(w, later, job.Leaf(), job.manifest.digest)
      && LeafManifest(w, later, job.Leaf()) == LeafManifest(w, s.entries, job.Leaf())
  {
    ReachableInv(w, s);
    assert PhaseOK(w, s.entries, s.Phase(p));
    RunKeepsInv(w, s, run);
  }

  /** An upload that returned nil: HasBlob finds the blob, with its bytes, then and in every later state. */
  lemma UploadStays(w: World, s: State, run: seq<(Pid, Event)>, p: Pid, desc: Descriptor)
    requires IndexRoundTrip(w) && Reachable(w, s) && s.Phase(p) == Put(desc, Ok)
    requires Exec(w, s, run).Some?
    ensures var later := Exec(w, s, run).value.entries;
      BlobEntry(desc.digest) in later && w.hash(later[BlobEntry(desc.digest)]) == desc.digest
  {
    ReachableInv(w, s);
    assert PhaseOK(w, s.entries, s.Phase(p));
    RunKeepsInv(w, s, run);
  }

  /** Two commits to one leaf that both returned nil, however far apart, committed one digest. */
  lemma OneWinner(w: World, s: State, run: seq<(Pid, Event)>, p: Pid, q: Pid, a: Job, b: Job)
    requires IndexRoundTrip(w) && Reachable(w, s) && Exec(w, s, run).Some?
    requires s.Phase(p) == Committed(a, Ok) && Exec(w, s, run).value.Phase(q) == Committed(b, Ok)
    requires a.Leaf() == b.Leaf()
    ensures a.manifest.digest == b.manifest.digest
  {
    WinnerStays(w, s, run, p, a);
    ReachableInv(w, s);
    RunKeepsInv(w, s, run);
    assert PhaseOK(w, Exec(w, s, run).value.entries, Exec(w, s, run).value.Phase(q));
  }

  /** At the index step of a leaf that holds another digest, Commit goes on to ErrConflict and changes nothing. */
  lemma LoserConflicts(w: World, es: Entries, later: Entries, job: Job, m: Manifest, cfg: Config, d: Digest)
    requires Holds(w, es, job.Leaf(), d) && d != job.manifest.digest && Grows(es, later)
    ensures Call(w, es, AtIndex(job, m, cfg)) == (es, AtReadBack(job))
    ensures Call(w, later, AtReadBack(job)) == (later, Committed(job, Err(Conflict)))
  {
    assert later[IndexEntry(job.Leaf())] == es[IndexEntry(job.Leaf())];
  }

  // ---------------------------------------------------------------------------------------------
  // Resolve

  /** The image Resolve returns: its manifest descriptor, and whether it came from a leaf. */
  datatype Resolved = Resolved(manifest: Descriptor, fromLeaf: bool)

  /** The leaf for ref and p; a manifest-digest ref without a leaf falls back to the bare blob. */
  function Resolve(w: World, es: Entries, ref: Reference, p: Platform): Option<Resolved> {
    var leaf := LeafOf(ref, p);
    match LeafManifest(w, es, leaf)
    case Some(m) => Some(Resolved(m, true))
    case None =>
      if IndexEntry(leaf) in es || ref.digest.None? then None
      else
        match ReadBlob(w, es, ref.digest.value)
        case None => None
        case Some(b) =>
          match w.mediaType(b)
          case None => None
          case Some(mt) =>
            if IsManifest(mt) then Some(Resolved(Descriptor(mt, ref.digest.value, |b|), false)) else None
  }

  /** After a commit returned nil, Resolve finds that manifest in every later state. */
  lemma ResolveFindsWinner(w: World, s: State, run: seq<(Pid, Event)>, p: Pid, job: Job)
    requires IndexRoundTrip(w) && Reachable(w, s) && s.Phase(p) == Committed(job, Ok)
    requires Exec(w, s, run).Some?
    ensures var r := Resolve(w, Exec(w, s, run).value.entries, job.ref, job.platform);
      r.Some? && r.value.fromLeaf && r.value.manifest.digest == job.manifest.digest
  {
    WinnerStays(w, s, run, p, job);
  }

  /**
   * What Resolve takes on trust: a manifest blob may be stored without its layers, because uploads
   * run in parallel and one that fails does not stop the rest. From the empty store a single upload
   * of a manifest reaches a state where Resolve answers with an image whose layers are all absent.
   */
  lemma BareManifestIsNotClosed(w: World, ref: Reference, p: Platform, body: Bytes, m: Manifest, mt: string)
    returns (s: State)
    requires ref.digest == Some(w.hash(body)) && ValidDigest(w.hash(body))
    requires w.manifest(body) == Some(m) && w.mediaType(body) == Some(mt)
    requires mt in [
      "application/vnd.oci.image.manifest.v1+json", "application/vnd.docker.distribution.manifest.v2+json"]
    requires forall i | 0 <= i < |m.layers| :: m.layers[i].digest != w.hash(body)
    ensures Reachable(w, s)
    ensures Resolve(w, s.entries, ref, p) == Some(Resolved(Descriptor(mt, w.hash(body), |body|), false))
    ensures forall i | 0 <= i < |m.layers| :: BlobEntry(m.layers[i].digest) !in s.entries
  {
    var d := w.hash(body);
    var desc := Descriptor(mt, d, |body|);
    var s1 := State(map[], map[0 := AtProbe(desc, body)]);
    var s2 := State(map[], map[0 := AtCreate(desc, body)]);
    s := State(map[BlobEntry(d) := body], map[0 := Put(desc, Ok)]);
    assert Step(w, NOTHING, 0, BeginPut(desc, body)) == Some(s1);
    assert s1.procs[0 := AtCreate(desc, body)] == s2.procs;
    assert Step(w, s1, 0, CallReturns) == Some(s2);
    assert s2.procs[0 := Put(desc, Ok)] == s.procs;
    assert s2.entries[BlobEntry(d) := body] == s.entries;
    assert Step(w, s2, 0, CallReturns) == Some(s);
    var run: seq<(Pid, Event)> := [(0, BeginPut(desc, body)), (0, CallReturns), (0, CallReturns)];
    calc {
      Exec(w, NOTHING, run);
      { assert run[1..] == [(0, CallReturns), (0, CallReturns)]; }
      Exec(w, s1, [(0, CallReturns), (0, CallReturns)]);
      { assert [(0, CallReturns), (0, CallReturns)][1..] == [(0, CallReturns)]; }
      Exec(w, s2, [(0, CallReturns)]);
      { assert [(0, CallReturns)][1..] == []; }
      Exec(w, s, []);
      Some(s);
    }
  }
}
