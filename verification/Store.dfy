/** Commit and PutBlob of one process alone, as the calls of StoreProtocol one after another. */
module Store {
  import opened Content
  import opened ImageModel
  import opened StoreProtocol

  function Stage(ph: Phase): nat {
    match ph
    case AtManifest(_) => 7
    case AtConfig(_, _) => 6
    case AtLayer(_, _, _, _) => 5
    case AtMarker(_, _, _, _) => 4
    case AtLayout(_, _, _) => 3
    case AtIndex(_, _, _) => 2
    case AtReadBack(_) => 1
    case AtProbe(_, _) => 2
    case AtCreate(_, _) => 1
    case _ => 0
  }

  function Left(ph: Phase): nat {
    if (ph.AtLayer? || ph.AtMarker?) && ph.i < |ph.m.layers| then |ph.m.layers| - ph.i else 0
  }

  /** All remaining calls of one process, with no call of another in between. */
  function Solo(w: World, es: Entries, ph: Phase): (Entries, Phase)
    decreases Stage(ph), Left(ph)
  {
    if ph.Over() then (es, ph)
    else
      var (es', ph') := Call(w, es, ph);
      Solo(w, es', ph')
  }

  lemma SoloStep(w: World, es: Entries, ph: Phase)
    requires !ph.Over()
    ensures var (es', ph') := Call(w, es, ph); Solo(w, es, ph) == Solo(w, es', ph')
  {
  }

  // ---------------------------------------------------------------------------------------------
  // What a commit that is left alone does

  /** Everything Commit checks before it writes. */
  ghost predicate Committable(w: World, es: Entries, job: Job) {
    && IsManifest(job.manifest.mediaType)
    && ReadManifest(w, es, job.manifest.digest).Some?
    && var m := ReadManifest(w, es, job.manifest.digest).value;
    && ReadConfig(w, es, m.config.digest).Some?
    && Sound(w, es, job.platform, job.manifest.digest, m, ReadConfig(w, es, m.config.digest).value)
  }

  function MarkersOf(m: Manifest, cfg: Config, from: nat): set<Name>
    requires |cfg.diffIDs| == |m.layers|
  {
    set i: nat | from <= i < |m.layers| :: MarkerEntry(cfg.diffIDs[i], m.layers[i].digest)
  }

  /** The names a commit of a fresh leaf creates, as far as they are absent. */
  ghost function NamesOf(w: World, es: Entries, job: Job): set<Name>
    requires Committable(w, es, job)
  {
    var m := ReadManifest(w, es, job.manifest.digest).value;
    MarkersOf(m, ReadConfig(w, es, m.config.digest).value, 0) + {LayoutEntry(job.Leaf()), IndexEntry(job.Leaf())}
  }

  /** `later` is `es` with exactly `names` added. */
  ghost predicate Adds(es: Entries, later: Entries, names: set<Name>) {
    Grows(es, later) && later.Keys == es.Keys + names
  }

  function WithMarker(w: World, es: Entries, m: Manifest, cfg: Config, i: nat): (later: Entries)
    requires i < |m.layers| && i < |cfg.diffIDs|
    ensures Adds(es, later, {MarkerEntry(cfg.diffIDs[i], m.layers[i].digest)})
  {
    Create(w, es, MarkerEntry(cfg.diffIDs[i], m.layers[i].digest), EMPTY_OBJECT, |EMPTY_OBJECT|, None).0
  }

  function AddMarkers(w: World, es: Entries, m: Manifest, cfg: Config, i: nat): (later: Entries)
    requires |cfg.diffIDs| == |m.layers| && i <= |m.layers|
    ensures Adds(es, later, MarkersOf(m, cfg, i))
    decreases |m.layers| - i
  {
    if i == |m.layers| then
      assert MarkersOf(m, cfg, i) == {};
      es
    else
      var name := MarkerEntry(cfg.diffIDs[i], m.layers[i].digest);
      assert MarkersOf(m, cfg, i) == MarkersOf(m, cfg, i + 1) + {name};
      AddMarkers(w, WithMarker(w, es, m, cfg, i), m, cfg, i + 1)
  }

  lemma MarkerStep(w: World, es: Entries, job: Job, m: Manifest, cfg: Config, i: nat)
    requires |cfg.diffIDs| == |m.layers| && i < |m.layers|
    ensures Solo(w, es, NextMarker(job, m, cfg, i)) ==
      Solo(w, WithMarker(w, es, m, cfg, i), NextMarker(job, m, cfg, i + 1))
  {
    SoloStep(w, es, AtMarker(job, m, cfg, i));
  }

  /** For any way `solo` of finishing a process that one marker at a time does not change. */
  lemma MarkersLoop(
      w: World, solo: (Entries, Phase) -> (Entries, Phase), es: Entries, job: Job, m: Manifest, cfg: Config)
    requires |cfg.diffIDs| == |m.layers|
    requires forall e, i: nat | i < |m.layers| ::
      solo(e, NextMarker(job, m, cfg, i)) == solo(WithMarker(w, e, m, cfg, i), NextMarker(job, m, cfg, i + 1))
    ensures solo(es, NextMarker(job, m, cfg, 0)) == solo(AddMarkers(w, es, m, cfg, 0), AtLayout(job, m, cfg))
  {
    var later := es;
    for i := 0 to |m.layers|
      invariant solo(es, NextMarker(job, m, cfg, 0)) == solo(later, NextMarker(job, m, cfg, i))
      invariant AddMarkers(w, es, m, cfg, 0) == AddMarkers(w, later, m, cfg, i)
    {
      assert solo(later, NextMarker(job, m, cfg, i)) ==
        solo(WithMarker(w, later, m, cfg, i), NextMarker(job, m, cfg, i + 1));
      later := WithMarker(w, later, m, cfg, i);
    }
  }

  lemma SoloMarkers(w: World, es: Entries, job: Job, m: Manifest, cfg: Config)
    requires |cfg.diffIDs| == |m.layers|
    ensures Solo(w, es, NextMarker(job, m, cfg, 0)) == Solo(w, AddMarkers(w, es, m, cfg, 0), AtLayout(job, m, cfg))
  {
    var solo := (e: Entries, ph: Phase) => Solo(w, e, ph);
    forall e, i: nat | i < |m.layers|
      ensures solo(e, NextMarker(job, m, cfg, i)) == solo(WithMarker(w, e, m, cfg, i), NextMarker(job, m, cfg, i + 1))
    {
      MarkerStep(w, e, job, m, cfg, i);
    }
    MarkersLoop(w, solo, es, job, m, cfg);
  }

  /** How a commit whose markers are written ends. */
  ghost predicate LeafEnds(w: World, es: Entries, job: Job, end: (Entries, Phase)) {
    var (later, ph) := end;
    && ph.Committed? && ph.job == job
    && Adds(es, later, {LayoutEntry(job.Leaf()), IndexEntry(job.Leaf())})
    && (ph.result.Ok? <==> (IndexEntry(job.Leaf()) in es ==> Holds(w, es, job.Leaf(), job.manifest.digest)))
    && (IndexEntry(job.Leaf()) !in es ==> LeafManifest(w, later, job.Leaf()) == Some(job.manifest))
  }

  lemma SoloLeaf(w: World, es: Entries, job: Job, m: Manifest, cfg: Config)
    requires IndexRoundTrip(w)
    ensures LeafEnds(w, es, job, Solo(w, es, AtLayout(job, m, cfg)))
  {
    var es1 := Call(w, es, AtLayout(job, m, cfg)).0;
    SoloStep(w, es, AtLayout(job, m, cfg));
    SoloStep(w, es1, AtIndex(job, m, cfg));
    assert LeafManifest(w, es1, job.Leaf()) == LeafManifest(w, es, job.Leaf());
    if IndexEntry(job.Leaf()) in es {
      SoloStep(w, es1, AtReadBack(job));
    }
  }

  /** The probes write nothing; they reach the markers exactly when all layers are there and counts agree. */
  lemma {:induction false} SoloProbes(w: World, es: Entries, job: Job, m: Manifest, cfg: Config, i: nat)
    requires LayersStored(es, m, i)
    ensures if LayersStored(es, m, |m.layers|) && |cfg.diffIDs| == |m.layers|
      then Solo(w, es, NextLayer(job, m, cfg, i)) == Solo(w, es, NextMarker(job, m, cfg, 0))
      else ProbesFail(es, job, m, Solo(w, es, NextLayer(job, m, cfg, i)))
    decreases |m.layers| - i
  {
    if i < |m.layers| {
      SoloStep(w, es, AtLayer(job, m, cfg, i));
      if LayersStored(es, m, i + 1) {
        SoloProbes(w, es, job, m, cfg, i + 1);
      }
    }
  }

  ghost predicate ProbesFail(es: Entries, job: Job, m: Manifest, end: (Entries, Phase)) {
    && GivesUp(es, job, end)
    && var error := end.1.result.error;
    if LayersStored(es, m, |m.layers|) then error == CountMismatch else error == BadDigest || error == MissingLayer
  }

  ghost predicate GivesUp(es: Entries, job: Job, end: (Entries, Phase)) {
    end.0 == es && end.1.Committed? && end.1.job == job && end.1.result.Err?
  }

  lemma SoloChecks(w: World, es: Entries, job: Job)
    ensures if Committable(w, es, job)
      then
        var m := ReadManifest(w, es, job.manifest.digest).value;
        var cfg := ReadConfig(w, es, m.config.digest).value;
        Solo(w, es, StartCommit(job)) == Solo(w, es, NextMarker(job, m, cfg, 0))
      else GivesUp(es, job, Solo(w, es, StartCommit(job)))
  {
    if IsManifest(job.manifest.mediaType) {
      SoloStep(w, es, StartCommit(job));
      if ReadManifest(w, es, job.manifest.digest).Some? && NoForeign(ReadManifest(w, es, job.manifest.digest).value) {
        var m := ReadManifest(w, es, job.manifest.digest).value;
        SoloStep(w, es, AtConfig(job, m));
        if ReadConfig(w, es, m.config.digest).Some? {
          SoloProbes(w, es, job, m, ReadConfig(w, es, m.config.digest).value, 0);
        }
      }
    }
  }

  /** What a commit that is left alone reports of each check, in the order of the checks. */
  ghost predicate Reports(w: World, es: Entries, job: Job, error: Error) {
    if !IsManifest(job.manifest.mediaType) then error == NotManifest
    else if ReadManifest(w, es, job.manifest.digest).None? then error == BadManifest
    else
      var m := ReadManifest(w, es, job.manifest.digest).value;
      if !NoForeign(m) then error == ForeignLayer
      else if ReadConfig(w, es, m.config.digest).None? then error == BadConfig
      else
        var cfg := ReadConfig(w, es, m.config.digest).value;
        if !job.platform.Matches(cfg.platform) then error == WrongPlatform
        else if !LayersStored(es, m, |m.layers|) then error == BadDigest || error == MissingLayer
        else if |cfg.diffIDs| != |m.layers| then error == CountMismatch
        else if LeafManifest(w, es, job.Leaf()).None? then IndexEntry(job.Leaf()) in es && error == BadIndex
        else !Holds(w, es, job.Leaf(), job.manifest.digest) && error == Conflict
  }

  /** Each error of a commit left alone names the first check that failed. */
  lemma SoloErrors(w: World, es: Entries, job: Job)
    requires IndexRoundTrip(w)
    ensures var r := Solo(w, es, StartCommit(job)).1;
      r.Committed? && (r.result.Err? ==> Reports(w, es, job, r.result.error))
  {
    SoloCommit(w, es, job);
    if Committable(w, es, job) {
      var m := ReadManifest(w, es, job.manifest.digest).value;
      var cfg := ReadConfig(w, es, m.config.digest).value;
      SoloChecks(w, es, job);
      SoloMarkers(w, es, job, m, cfg);
      MarkersLeaveLeaf(w, es, AddMarkers(w, es, m, cfg, 0), m, cfg, job.Leaf());
      SoloLeafError(w, AddMarkers(w, es, m, cfg, 0), job, m, cfg);
    } else {
      SoloCheckErrors(w, es, job);
    }
  }

  lemma SoloLeafError(w: World, es: Entries, job: Job, m: Manifest, cfg: Config)
    requires IndexRoundTrip(w)
    ensures var r := Solo(w, es, AtLayout(job, m, cfg)).1; r.Committed? && (r.result.Err? ==>
      if LeafManifest(w, es, job.Leaf()).None? then IndexEntry(job.Leaf()) in es && r.result.error == BadIndex
      else !Holds(w, es, job.Leaf(), job.manifest.digest) && r.result.error == Conflict)
  {
    var es1 := Call(w, es, AtLayout(job, m, cfg)).0;
    SoloStep(w, es, AtLayout(job, m, cfg));
    SoloStep(w, es1, AtIndex(job, m, cfg));
    assert LeafManifest(w, es1, job.Leaf()) == LeafManifest(w, es, job.Leaf());
    if IndexEntry(job.Leaf()) in es {
      SoloStep(w, es1, AtReadBack(job));
    }
  }

  lemma SoloCheckErrors(w: World, es: Entries, job: Job)
    requires !Committable(w, es, job)
    ensures var r := Solo(w, es, StartCommit(job)).1;
      r.Committed? && r.result.Err? && Reports(w, es, job, r.result.error)
  {
    if IsManifest(job.manifest.mediaType) {
      SoloStep(w, es, StartCommit(job));
      if ReadManifest(w, es, job.manifest.digest).Some? && NoForeign(ReadManifest(w, es, job.manifest.digest).value) {
        var m := ReadManifest(w, es, job.manifest.digest).value;
        SoloStep(w, es, AtConfig(job, m));
        if ReadConfig(w, es, m.config.digest).Some? {
          SoloProbes(w, es, job, m, ReadConfig(w, es, m.config.digest).value, 0);
        }
      }
    }
  }

  /** How a commit that is left alone ends. */
  ghost predicate CommitEnds(w: World, es: Entries, job: Job, end: (Entries, Phase)) {
    var (later, ph) := end;
    && ph.Committed? && ph.job == job
    && (ph.result.Ok? <==>
      && Committable(w, es, job)
      && (IndexEntry(job.Leaf()) in es ==> Holds(w, es, job.Leaf(), job.manifest.digest)))
    && (if Committable(w, es, job) then Adds(es, later, NamesOf(w, es, job)) else later == es)
    && (ph.result.Ok? ==> Holds(w, later, job.Leaf(), job.manifest.digest))
  }

  lemma AddsBoth(es: Entries, mid: Entries, later: Entries, a: set<Name>, b: set<Name>)
    requires Adds(es, mid, a) && Adds(mid, later, b)
    ensures Adds(es, later, a + b)
  {
  }

  lemma MarkersLeaveLeaf(w: World, es: Entries, mid: Entries, m: Manifest, cfg: Config, leaf: Leaf)
    requires |cfg.diffIDs| == |m.layers| && Adds(es, mid, MarkersOf(m, cfg, 0))
    ensures IndexEntry(leaf) in mid <==> IndexEntry(leaf) in es
    ensures LeafManifest(w, mid, leaf) == LeafManifest(w, es, leaf)
  {
    assert IndexEntry(leaf) !in MarkersOf(m, cfg, 0);
    assert IndexEntry(leaf) in mid.Keys <==> IndexEntry(leaf) in es.Keys;
  }

  lemma CommitTail(w: World, es: Entries, mid: Entries, job: Job, m: Manifest, cfg: Config, end: (Entries, Phase))
    requires Committable(w, es, job) && |cfg.diffIDs| == |m.layers|
    requires ReadManifest(w, es, job.manifest.digest) == Some(m) && ReadConfig(w, es, m.config.digest) == Some(cfg)
    requires Adds(es, mid, MarkersOf(m, cfg, 0)) && LeafEnds(w, mid, job, end)
    ensures CommitEnds(w, es, job, end)
  {
    MarkersLeaveLeaf(w, es, mid, m, cfg, job.Leaf());
    AddsBoth(es, mid, end.0, MarkersOf(m, cfg, 0), {LayoutEntry(job.Leaf()), IndexEntry(job.Leaf())});
  }

  /**
   * Commit, left alone: it succeeds exactly when everything it names is stored, distributable and of
   * the right platform, and the leaf is absent or already holds the manifest. When the checks pass it
   * has added the markers, the layout file and index.json and nothing else; otherwise nothing.
   */
  lemma SoloCommit(w: World, es: Entries, job: Job)
    requires IndexRoundTrip(w)
    ensures CommitEnds(w, es, job, Solo(w, es, StartCommit(job)))
  {
    SoloChecks(w, es, job);
    if Committable(w, es, job) {
      var m := ReadManifest(w, es, job.manifest.digest).value;
      var cfg := ReadConfig(w, es, m.config.digest).value;
      SoloMarkers(w, es, job, m, cfg);
      SoloLeaf(w, AddMarkers(w, es, m, cfg, 0), job, m, cfg);
      CommitTail(w, es, AddMarkers(w, es, m, cfg, 0), job, m, cfg, Solo(w, es, StartCommit(job)));
    }
  }

  /** PutBlob, left alone: nil exactly when the blob is there afterwards, which needs it there or matching. */
  lemma SoloPut(w: World, es: Entries, desc: Descriptor, body: Bytes)
    ensures var (later, ph) := Solo(w, es, StartPut(desc, body));
      && ph.Put? && ph.desc == desc
      && (ph.stored.Ok? <==>
        && ValidDigest(desc.digest)
        && (BlobEntry(desc.digest) in es || (w.hash(body) == desc.digest && (desc.size < 0 || desc.size == |body|))))
      && later == if ph.stored.Ok? && BlobEntry(desc.digest) !in es then es[BlobEntry(desc.digest) := body] else es
  {
    if ValidDigest(desc.digest) && BlobEntry(desc.digest) !in es {
      SoloStep(w, es, AtProbe(desc, body));
      SoloCreate(w, es, desc, body);
    }
  }

  lemma SoloCreate(w: World, es: Entries, desc: Descriptor, body: Bytes)
    ensures var (es', created) := Create(w, es, BlobEntry(desc.digest), body, desc.size, Some(desc.digest));
      Solo(w, es, AtCreate(desc, body)) == (es', Put(desc, if created.Refused? then Err(Refusal) else Ok))
  {
    var (es', ph') := Call(w, es, AtCreate(desc, body));
    SoloStep(w, es, AtCreate(desc, body));
    assert Solo(w, es', ph') == (es', ph');
  }

  /** Anything every call keeps is kept by a process left alone. */
  lemma {:induction false} SoloKeeps(w: World, es: Entries, ph: Phase, inv: (Entries, Phase) -> bool)
    requires inv(es, ph)
    requires forall e, p | inv(e, p) && !p.Over() :: inv(Call(w, e, p).0, Call(w, e, p).1)
    ensures inv(Solo(w, es, ph).0, Solo(w, es, ph).1)
    decreases Stage(ph), Left(ph)
  {
    if !ph.Over() {
      SoloKeeps(w, Call(w, es, ph).0, Call(w, es, ph).1, inv);
    }
  }

  /** The bytes a commit writes under a name. */
  function Document(w: World, job: Job, n: Name): Bytes {
    match n
    case LayoutEntry(_) => w.layout
    case IndexEntry(_) => w.encodeIndex(job.ref, job.platform, job.manifest)
    case _ => [123, 125]
  }

  /** Every new entry holds what belongs there: layout document, index, or a marker's empty object. */
  ghost predicate Wrote(w: World, es: Entries, later: Entries, job: Job) {
    forall n | n in later && n !in es :: !n.BlobEntry? && later[n] == Document(w, job, n)
  }

  lemma CallWrites(w: World, es: Entries, now: Entries, ph: Phase, job: Job)
    requires ph.Commits() && ph.job == job && Wrote(w, es, now, job)
    ensures Wrote(w, es, Call(w, now, ph).0, job) && Call(w, now, ph).1.Commits() && Call(w, now, ph).1.job == job
  {
    CallGrows(w, now, ph);
    forall n | n in Call(w, now, ph).0 && n !in now
      ensures !n.BlobEntry? && Call(w, now, ph).0[n] == Document(w, job, n)
    {
      CallAdds(w, now, ph, n);
    }
  }

  /** What a commit left alone adds, it adds with the right bytes. */
  lemma SoloWrites(w: World, es: Entries, ph: Phase)
    requires ph.Commits()
    ensures Wrote(w, es, Solo(w, es, ph).0, ph.job)
  {
    var inv := (e: Entries, p: Phase) => p.Commits() && p.job == ph.job && Wrote(w, es, e, ph.job);
    forall e, p | inv(e, p) ensures inv(Call(w, e, p).0, Call(w, e, p).1) {
      CallWrites(w, es, e, p, ph.job);
    }
    SoloKeeps(w, es, ph, inv);
  }

  ghost predicate Healthy(w: World, es: Entries, ph: Phase) {
    StoreOK(w, es) && PhaseOK(w, es, ph)
  }

  lemma CallKeepsHealthy(w: World, es: Entries, ph: Phase)
    requires IndexRoundTrip(w) && Healthy(w, es, ph)
    ensures Healthy(w, Call(w, es, ph).0, Call(w, es, ph).1)
  {
    CallKeepsStore(w, es, ph);
    CallKeepsPhase(w, es, ph);
  }

  /** What a process left alone does keeps the store closed and its markers honest. */
  lemma SoloKeepsHealthy(w: World, es: Entries, ph: Phase)
    requires IndexRoundTrip(w) && Healthy(w, es, ph)
    ensures Healthy(w, Solo(w, es, ph).0, Solo(w, es, ph).1)
  {
    var inv := (e: Entries, p: Phase) => Healthy(w, e, p);
    forall e, p | inv(e, p) ensures inv(Call(w, e, p).0, Call(w, e, p).1) {
      CallKeepsHealthy(w, e, p);
    }
    SoloKeeps(w, es, ph, inv);
  }

  // ---------------------------------------------------------------------------------------------
  // A commit among others

  ghost predicate Shrinks(ph: Phase, ph': Phase) {
    || Stage(ph') < Stage(ph)
    || (Stage(ph') == Stage(ph) && Left(ph') < Left(ph))
  }

  lemma CallDecreases(w: World, es: Entries, ph: Phase)
    requires !ph.Over()
    ensures Shrinks(ph, Call(w, es, ph).1)
  {
  }

  /** A commit whose manifest passes every check can only end with nil or a conflict. */
  ghost predicate OnTrack(w: World, es: Entries, job: Job, ph: Phase) {
    && Committable(w, es, job)
    && ph.Commits() && ph.job == job
    && (ph.Committed? ==> ph.result == Ok || ph.result == Err(Conflict))
  }

  lemma GrowthKeepsCommittable(w: World, es: Entries, later: Entries, job: Job)
    requires Grows(es, later) && Committable(w, es, job)
    ensures Committable(w, later, job)
  {
    var m := ReadManifest(w, es, job.manifest.digest).value;
    GrowthKeepsSound(w, es, later, job.platform, job.manifest.digest, m, ReadConfig(w, es, m.config.digest).value);
  }

  lemma CallStaysOnTrack(w: World, es: Entries, job: Job, ph: Phase)
    requires StoreOK(w, es) && PhaseOK(w, es, ph) && OnTrack(w, es, job, ph) && IndexRoundTrip(w)
    ensures OnTrack(w, Call(w, es, ph).0, job, Call(w, es, ph).1)
  {
    CallGrows(w, es, ph);
    GrowthKeepsCommittable(w, es, Call(w, es, ph).0, job);
    if ph.AtReadBack? {
      assert LeafClosed(w, es, job.Leaf());
    } else if ph.AtManifest? || ph.AtConfig? || ph.AtLayer? {
      CheckPasses(w, es, job, ph);
    }
  }

  lemma CheckPasses(w: World, es: Entries, job: Job, ph: Phase)
    requires Committable(w, es, job) && PhaseOK(w, es, ph) && (ph.AtManifest? || ph.AtConfig? || ph.AtLayer?)
    requires ph.job == job
    ensures var ph' := Call(w, es, ph).1; ph'.Commits() && ph'.job == job && !ph'.Committed?
  {
  }

  lemma CommitCallEnds(w: World, es: Entries, ph: Phase)
    requires ph.Commits()
    ensures Call(w, es, ph).1.Commits() && Call(w, es, ph).1.job == ph.job
    ensures Failed(ph) == Committed(ph.job, Err(BackendFailure)) && (!ph.Over() ==> Shrinks(ph, Failed(ph)))
    ensures !ph.Over() ==> Call(w, es, ph).1 != Committed(ph.job, Err(BackendFailure))
  {
  }

  /** The leaf holds a manifest of another digest. */
  ghost predicate HoldsOther(w: World, es: Entries, leaf: Leaf, d: Digest) {
    LeafManifest(w, es, leaf).Some? && LeafManifest(w, es, leaf).value.digest != d
  }

  /** Commit answers with a conflict only when the leaf holds another digest. */
  lemma ConflictHoldsOther(w: World, es: Entries, ph: Phase)
    requires ph.Commits() && !ph.Over() && Call(w, es, ph).1 == Committed(ph.job, Err(Conflict))
    ensures HoldsOther(w, Call(w, es, ph).0, ph.job.Leaf(), ph.job.manifest.digest)
  {
  }

  // ---------------------------------------------------------------------------------------------

  /** A store over a backend that holds `entries`. */
  class Store {
    const w: World
    var entries: Entries

    constructor (world: World)
      ensures w == world && entries == map[]
    {
      w := world;
      entries := map[];
    }

    method CreateEntry(name: Name, body: Bytes, size: int, dgst: Option<Digest>) returns (created: Created)
      modifies this
      ensures (entries, created) == Create(w, old(entries), name, body, size, dgst)
    {
      if name in entries {
        return Exists;
      }
      if !Verifies(w.hash, body, size, dgst) {
        return Refused;
      }
      entries := entries[name := body];
      created := Fresh;
    }

    method HasBlob(d: Digest) returns (has: Option<bool>)
      ensures has == if ValidDigest(d) then Some(BlobEntry(d) in entries) else None
    {
      if !ValidDigest(d) {
        return None;
      }
      has := Some(BlobEntry(d) in entries);
    }

    method PutBlob(desc: Descriptor, body: Bytes) returns (result: Result)
      modifies this
      ensures (entries, Put(desc, result)) == Solo(w, old(entries), StartPut(desc, body))
    {
      var has := HasBlob(desc.digest);
      if has.None? {
        return Err(BadDigest);
      }
      SoloStep(w, entries, AtProbe(desc, body));
      if has.value {
        return Ok;
      }
      SoloCreate(w, entries, desc, body);
      var created := CreateEntry(BlobEntry(desc.digest), body, desc.size, Some(desc.digest));
      result := if created.Refused? then Err(Refusal) else Ok;
    }

    /** Probes every layer; None when all are stored. */
    method ProbeLayers(job: Job, m: Manifest, cfg: Config) returns (error: Option<Error>)
      ensures error.None? ==>
        Solo(w, entries, NextLayer(job, m, cfg, 0)) == Solo(w, entries, NextLayer(job, m, cfg, |m.layers|))
      ensures error.Some? ==>
        Solo(w, entries, NextLayer(job, m, cfg, 0)) == (entries, Committed(job, Err(error.value)))
    {
      for i := 0 to |m.layers|
        invariant Solo(w, entries, NextLayer(job, m, cfg, 0)) == Solo(w, entries, NextLayer(job, m, cfg, i))
      {
        SoloStep(w, entries, AtLayer(job, m, cfg, i));
        var has := HasBlob(m.layers[i].digest);
        if has.None? {
          return Some(BadDigest);
        }
        if !has.value {
          return Some(MissingLayer);
        }
      }
      error := None;
    }

    method WriteMarkers(job: Job, m: Manifest, cfg: Config)
      requires |cfg.diffIDs| == |m.layers|
      modifies this
      ensures Solo(w, old(entries), NextMarker(job, m, cfg, 0)) == Solo(w, entries, AtLayout(job, m, cfg))
    {
      for i := 0 to |m.layers|
        invariant Solo(w, old(entries), NextMarker(job, m, cfg, 0)) == Solo(w, entries, NextMarker(job, m, cfg, i))
      {
        MarkerStep(w, entries, job, m, cfg, i);
        var _ := CreateEntry(
          MarkerEntry(cfg.diffIDs[i], m.layers[i].digest), EMPTY_OBJECT, |EMPTY_OBJECT|, None);
      }
    }

    /** The layout file, then index.json; an existing one decides between a no-op and a conflict. */
    method WriteLeaf(job: Job, m: Manifest, cfg: Config) returns (result: Result)
      modifies this
      ensures Solo(w, old(entries), AtLayout(job, m, cfg)) == (entries, Committed(job, result))
      ensures Wrote(w, old(entries), entries, job)
    {
      SoloWrites(w, entries, AtLayout(job, m, cfg));
      SoloStep(w, entries, AtLayout(job, m, cfg));
      var _ := CreateEntry(LayoutEntry(job.Leaf()), w.layout, |w.layout|, None);
      SoloStep(w, entries, AtIndex(job, m, cfg));
      var index := w.encodeIndex(job.ref, job.platform, job.manifest);
      var created := CreateEntry(IndexEntry(job.Leaf()), index, |index|, None);
      if !created.Exists? {
        return Ok;
      }
      SoloStep(w, entries, AtReadBack(job));
      var held := LeafManifest(w, entries, job.Leaf());
      if held.None? {
        return Err(BadIndex);
      }
      result := if held.value.digest == job.manifest.digest then Ok else Err(Conflict);
    }

    method Commit(job: Job) returns (result: Result)
      modifies this
      ensures Solo(w, old(entries), StartCommit(job)) == (entries, Committed(job, result))
      ensures Wrote(w, old(entries), entries, job)
    {
      SoloWrites(w, entries, StartCommit(job));
      if !IsManifest(job.manifest.mediaType) {
        return Err(NotManifest);
      }
      SoloStep(w, entries, AtManifest(job));
      var mo := ReadManifest(w, entries, job.manifest.digest);
      if mo.None? {
        return Err(BadManifest);
      }
      var m := mo.value;
      for i := 0 to |m.layers|
        invariant forall k | 0 <= k < i :: !IsForeign(m.layers[k].mediaType)
      {
        if IsForeign(m.layers[i].mediaType) {
          return Err(ForeignLayer);
        }
      }
      SoloStep(w, entries, AtConfig(job, m));
      var co := ReadConfig(w, entries, m.config.digest);
      if co.None? {
        return Err(BadConfig);
      }
      var cfg := co.value;
      if !job.platform.Matches(cfg.platform) {
        return Err(WrongPlatform);
      }
      var error := ProbeLayers(job, m, cfg);
      if error.Some? {
        return Err(error.value);
      }
      if |cfg.diffIDs| != |m.layers| {
        return Err(CountMismatch);
      }
      WriteMarkers(job, m, cfg);
      result := WriteLeaf(job, m, cfg);
    }
  }
}
