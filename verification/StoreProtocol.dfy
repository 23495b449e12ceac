/**
 * The write-once store: commits and uploads by any number of processes over one backend.
 *
 * One step is one backend call. A call may fail, may take effect and still report failure, and a
 * process may crash between calls.
 */
module StoreProtocol {
  import opened Content
  import opened ImageModel

  type Pid = nat

  datatype Key = Tagged(tag: string) | Pinned(digest: Digest)

  datatype Leaf = Leaf(repository: string, key: Key, platform: Platform)

  function LeafOf(ref: Reference, p: Platform): Leaf {
    Leaf(ref.repository, if ref.digest.Some? then Pinned(ref.digest.value) else Tagged(ref.tag), p)
  }

  /** The entries of the logical tree. LeafPath gives them distinct path names. */
  datatype Name =
    | BlobEntry(digest: Digest)
    | MarkerEntry(diffID: Digest, blob: Digest)
    | LayoutEntry(leaf: Leaf)
    | IndexEntry(leaf: Leaf)

  type Entries = map<Name, Bytes>

  // ---------------------------------------------------------------------------------------------
  // Backend and reads

  function Create(w: World, es: Entries, name: Name, body: Bytes, size: int, dgst: Option<Digest>): (Entries, Created) {
    CreateIfAbsent(w.hash, es, name, body, size, dgst)
  }

  /** A stored blob that matches its digest. */
  function ReadBlob(w: World, es: Entries, d: Digest): Option<Bytes> {
    if BlobEntry(d) in es && w.hash(es[BlobEntry(d)]) == d then Some(es[BlobEntry(d)]) else None
  }

  function ReadManifest(w: World, es: Entries, d: Digest): Option<Manifest> {
    match ReadBlob(w, es, d) case None => None case Some(b) => w.manifest(b)
  }

  function ReadConfig(w: World, es: Entries, d: Digest): Option<Config> {
    match ReadBlob(w, es, d) case None => None case Some(b) => w.config(b)
  }

  /** The manifest a leaf's index.json points at. */
  function LeafManifest(w: World, es: Entries, leaf: Leaf): Option<Descriptor> {
    if IndexEntry(leaf) !in es then None
    else
      match w.index(es[IndexEntry(leaf)])
      case None => None
      case Some(ms) => if |ms| == 1 then Some(ms[0]) else None
  }

  // ---------------------------------------------------------------------------------------------
  // One process

  datatype Job = Job(ref: Reference, platform: Platform, manifest: Descriptor) {
    function Leaf(): Leaf {
      LeafOf(ref, platform)
    }
  }

  datatype Error =
    | NotManifest | BadManifest | ForeignLayer | BadConfig | WrongPlatform | MissingLayer
    | BadDigest | CountMismatch | BadIndex | Conflict | Refusal | BackendFailure

  datatype Result = Ok | Err(error: Error)

  datatype Phase =
    | Idle
    // Commit
    | AtManifest(job: Job)
    | AtConfig(job: Job, m: Manifest)
    | AtLayer(job: Job, m: Manifest, cfg: Config, i: nat)
    | AtMarker(job: Job, m: Manifest, cfg: Config, i: nat)
    | AtLayout(job: Job, m: Manifest, cfg: Config)
    | AtIndex(job: Job, m: Manifest, cfg: Config)
    | AtReadBack(job: Job)
    | Committed(job: Job, result: Result)
    // PutBlob
    | AtProbe(desc: Descriptor, body: Bytes)
    | AtCreate(desc: Descriptor, body: Bytes)
    | Put(desc: Descriptor, stored: Result)
  {
    predicate Commits() {
      AtManifest? || AtConfig? || AtLayer? || AtMarker? || AtLayout? || AtIndex? || AtReadBack? || Committed?
    }

    predicate Over() {
      Idle? || Committed? || Put?
    }
  }

  function StartCommit(job: Job): Phase {
    if IsManifest(job.manifest.mediaType) then AtManifest(job) else Committed(job, Err(NotManifest))
  }

  function StartPut(desc: Descriptor, body: Bytes): Phase {
    if ValidDigest(desc.digest) then AtProbe(desc, body) else Put(desc, Err(BadDigest))
  }

  /** After the i-th layer was found: the next one, or the markers when the counts agree. */
  function NextLayer(job: Job, m: Manifest, cfg: Config, i: nat): Phase {
    if i < |m.layers| then AtLayer(job, m, cfg, i)
    else if |cfg.diffIDs| != |m.layers| then Committed(job, Err(CountMismatch))
    else NextMarker(job, m, cfg, 0)
  }

  function NextMarker(job: Job, m: Manifest, cfg: Config, i: nat): Phase {
    if i < |m.layers| then AtMarker(job, m, cfg, i) else AtLayout(job, m, cfg)
  }

  /** Commit's next backend call: reads and probes, then markers, layout file, and index.json last. */
  function CommitCall(w: World, es: Entries, ph: Phase): (Entries, Phase)
    requires ph.Commits()
  {
    match ph
    case AtManifest(job) =>
      (es, match ReadManifest(w, es, job.manifest.digest)
        case None => Committed(job, Err(BadManifest))
        case Some(m) =>
          if exists i | 0 <= i < |m.layers| :: IsForeign(m.layers[i].mediaType)
          then Committed(job, Err(ForeignLayer)) else AtConfig(job, m))
    case AtConfig(job, m) =>
      (es, match ReadConfig(w, es, m.config.digest)
        case None => Committed(job, Err(BadConfig))
        case Some(cfg) =>
          if !job.platform.Matches(cfg.platform) then Committed(job, Err(WrongPlatform))
          else NextLayer(job, m, cfg, 0))
    case AtLayer(job, m, cfg, i) =>
      (es,
        if i >= |m.layers| then NextLayer(job, m, cfg, i)
        else if !ValidDigest(m.layers[i].digest) then Committed(job, Err(BadDigest))
        else if BlobEntry(m.layers[i].digest) !in es then Committed(job, Err(MissingLayer))
        else NextLayer(job, m, cfg, i + 1))
    case AtMarker(job, m, cfg, i) =>
      if i >= |m.layers| || i >= |cfg.diffIDs| then (es, AtLayout(job, m, cfg))
      else
        var name := MarkerEntry(cfg.diffIDs[i], m.layers[i].digest);
        (Create(w, es, name, EMPTY_OBJECT, |EMPTY_OBJECT|, None).0, NextMarker(job, m, cfg, i + 1))
    case AtLayout(job, m, cfg) =>
      (Create(w, es, LayoutEntry(job.Leaf()), w.layout, |w.layout|, None).0, AtIndex(job, m, cfg))
    case AtIndex(job, _, _) =>
      var index := w.encodeIndex(job.ref, job.platform, job.manifest);
      var (es', created) := Create(w, es, IndexEntry(job.Leaf()), index, |index|, None);
      (es', if created.Exists? then AtReadBack(job) else Committed(job, Ok))
    case AtReadBack(job) =>
      (es, match LeafManifest(w, es, job.Leaf())
        case None => Committed(job, Err(BadIndex))
        case Some(held) => Committed(job, if held.digest == job.manifest.digest then Ok else Err(Conflict)))
    case Committed(_, _) => (es, ph)
  }

  /** The content of a marker: an empty JSON object. */
  const EMPTY_OBJECT: Bytes := [123, 125]

  /** PutBlob's next backend call: probe, then create verified against the descriptor. */
  function PutCall(w: World, es: Entries, ph: Phase): (Entries, Phase)
    requires ph.AtProbe? || ph.AtCreate? || ph.Put?
  {
    match ph
    case AtProbe(desc, body) =>
      (es, if BlobEntry(desc.digest) in es then Put(desc, Ok) else AtCreate(desc, body))
    case AtCreate(desc, body) =>
      var (es', created) := Create(w, es, BlobEntry(desc.digest), body, desc.size, Some(desc.digest));
      (es', Put(desc, if created.Refused? then Err(Refusal) else Ok))
    case Put(_, _) => (es, ph)
  }

  function Call(w: World, es: Entries, ph: Phase): (Entries, Phase) {
    if ph.Idle? then (es, Idle) else if ph.Commits() then CommitCall(w, es, ph) else PutCall(w, es, ph)
  }

  /** How a process that saw its call fail ends. */
  function Failed(ph: Phase): Phase {
    if ph.Idle? then Idle
    else if ph.Commits() then Committed(ph.job, Err(BackendFailure))
    else Put(ph.desc, Err(BackendFailure))
  }

  // ---------------------------------------------------------------------------------------------
  // Many processes

  datatype State = State(entries: Entries, procs: map<Pid, Phase>) {
    function Phase(p: Pid): Phase {
      if p in procs then procs[p] else Idle
    }
  }

  datatype Event =
    | BeginCommit(job: Job)
    | BeginPut(desc: Descriptor, body: Bytes)
    | CallReturns
    | CallFails
    | CallLies   // takes effect, reports failure
    | Crash

  function Step(w: World, s: State, p: Pid, e: Event): Option<State> {
    var ph := s.Phase(p);
    match e
    case BeginCommit(job) => if ph.Over() then Some(s.(procs := s.procs[p := StartCommit(job)])) else None
    case BeginPut(desc, body) => if ph.Over() then Some(s.(procs := s.procs[p := StartPut(desc, body)])) else None
    case CallReturns =>
      if ph.Over() then None
      else var (es, ph') := Call(w, s.entries, ph); Some(State(es, s.procs[p := ph']))
    case CallFails => if ph.Over() then None else Some(s.(procs := s.procs[p := Failed(ph)]))
    case CallLies =>
      if ph.Over() then None else Some(State(Call(w, s.entries, ph).0, s.procs[p := Failed(ph)]))
    case Crash => Some(s.(procs := s.procs[p := Idle]))
  }

  function Exec(w: World, s: State, run: seq<(Pid, Event)>): Option<State>
    decreases |run|
  {
    if run == [] then Some(s)
    else
      match Step(w, s, run[0].0, run[0].1)
      case None => None
      case Some(s') => Exec(w, s', run[1..])
  }

  // ---------------------------------------------------------------------------------------------
  // Invariants

  /** `later` holds everything `es` holds, unchanged. */
  ghost predicate Grows(es: Entries, later: Entries) {
    forall n | n in es :: n in later && later[n] == es[n]
  }

  ghost predicate BlobsOK(w: World, es: Entries) {
    forall d | BlobEntry(d) in es :: w.hash(es[BlobEntry(d)]) == d
  }

  /** A stored manifest and config that agree with `p`; the first `upTo` layers are stored, none is foreign. */
  ghost predicate Found(w: World, es: Entries, p: Platform, d: Digest, m: Manifest, cfg: Config, upTo: nat) {
    && ReadManifest(w, es, d) == Some(m)
    && ReadConfig(w, es, m.config.digest) == Some(cfg)
    && p.Matches(cfg.platform)
    && NoForeign(m)
    && LayersStored(es, m, upTo)
  }

  ghost predicate NoForeign(m: Manifest) {
    forall i | 0 <= i < |m.layers| :: !IsForeign(m.layers[i].mediaType)
  }

  ghost predicate LayersStored(es: Entries, m: Manifest, upTo: nat) {
    upTo <= |m.layers| && forall i | 0 <= i < upTo ::
      ValidDigest(m.layers[i].digest) && BlobEntry(m.layers[i].digest) in es
  }

  ghost predicate Sound(w: World, es: Entries, p: Platform, d: Digest, m: Manifest, cfg: Config) {
    Found(w, es, p, d, m, cfg, |m.layers|) && |cfg.diffIDs| == |m.layers|
  }

  ghost predicate Marked(es: Entries, m: Manifest, cfg: Config, upTo: nat) {
    forall i | 0 <= i < upTo && i < |m.layers| && i < |cfg.diffIDs| ::
      MarkerEntry(cfg.diffIDs[i], m.layers[i].digest) in es
  }

  /** Closure of a leaf: what its index.json points at is wholly in the store. */
  ghost predicate LeafClosed(w: World, es: Entries, leaf: Leaf) {
    IndexEntry(leaf) in es ==>
      LayoutEntry(leaf) in es && exists job: Job, m: Manifest, cfg: Config :: PointsAt(w, es, leaf, job, m, cfg)
  }

  ghost predicate PointsAt(w: World, es: Entries, leaf: Leaf, job: Job, m: Manifest, cfg: Config) {
    && IndexEntry(leaf) in es
    && job.Leaf() == leaf
    && IsManifest(job.manifest.mediaType)
    && es[IndexEntry(leaf)] == w.encodeIndex(job.ref, job.platform, job.manifest)
    && Sound(w, es, job.platform, job.manifest.digest, m, cfg)
    && Marked(es, m, cfg, |m.layers|)
  }

  /** A marker's blob is stored and some stored manifest and config pair the two at one index. */
  ghost predicate MarkerHonest(w: World, es: Entries, diffID: Digest, blob: Digest) {
    MarkerEntry(diffID, blob) in es ==>
      && BlobEntry(blob) in es
      && exists p, d, m: Manifest, cfg: Config, i: nat :: Paired(w, es, diffID, blob, p, d, m, cfg, i)
  }

  ghost predicate Paired(
      w: World, es: Entries, diffID: Digest, blob: Digest,
      p: Platform, d: Digest, m: Manifest, cfg: Config, i: nat)
  {
    Sound(w, es, p, d, m, cfg) && i < |m.layers| && cfg.diffIDs[i] == diffID && m.layers[i].digest == blob
  }

  /** Layout files hold the layout document, markers an empty JSON object. */
  ghost predicate BodiesOK(w: World, es: Entries) {
    && (forall leaf | LayoutEntry(leaf) in es :: es[LayoutEntry(leaf)] == w.layout)
    && (forall a, b | MarkerEntry(a, b) in es :: es[MarkerEntry(a, b)] == EMPTY_OBJECT)
  }

  ghost predicate StoreOK(w: World, es: Entries) {
    && BlobsOK(w, es)
    && BodiesOK(w, es)
    && (forall leaf :: LeafClosed(w, es, leaf))
    && (forall a, b :: MarkerHonest(w, es, a, b))
  }

  /** What a process has checked is true of the entries. */
  ghost predicate PhaseOK(w: World, es: Entries, ph: Phase) {
    match ph
    case Idle => true
    case AtManifest(job) => IsManifest(job.manifest.mediaType)
    case AtConfig(job, m) =>
      && IsManifest(job.manifest.mediaType)
      && ReadManifest(w, es, job.manifest.digest) == Some(m)
      && NoForeign(m)
    case AtLayer(job, m, cfg, i) =>
      IsManifest(job.manifest.mediaType) && Found(w, es, job.platform, job.manifest.digest, m, cfg, i)
    case AtMarker(job, m, cfg, i) => Checked(w, es, job, m, cfg) && Marked(es, m, cfg, i)
    case AtLayout(job, m, cfg) => Checked(w, es, job, m, cfg) && Marked(es, m, cfg, |m.layers|)
    case AtIndex(job, m, cfg) =>
      Checked(w, es, job, m, cfg) && Marked(es, m, cfg, |m.layers|) && LayoutEntry(job.Leaf()) in es
    case AtReadBack(job) => IndexEntry(job.Leaf()) in es
    // Commit returned nil: the leaf holds its manifest.
    case Committed(job, result) => result.Ok? ==> Holds(w, es, job.Leaf(), job.manifest.digest)
    case AtProbe(_, _) => true
    case AtCreate(_, _) => true
    case Put(desc, stored) => stored.Ok? ==> BlobEntry(desc.digest) in es
  }

  ghost predicate Checked(w: World, es: Entries, job: Job, m: Manifest, cfg: Config) {
    IsManifest(job.manifest.mediaType) && Sound(w, es, job.platform, job.manifest.digest, m, cfg)
  }

  ghost predicate Holds(w: World, es: Entries, leaf: Leaf, d: Digest) {
    LeafManifest(w, es, leaf).Some? && LeafManifest(w, es, leaf).value.digest == d
  }

  ghost predicate Inv(w: World, s: State) {
    StoreOK(w, s.entries) && forall p: Pid :: PhaseOK(w, s.entries, s.Phase(p))
  }

  lemma CallGrows(w: World, es: Entries, ph: Phase)
    ensures Grows(es, Call(w, es, ph).0)
  {
  }

  lemma GrowthKeepsSound(w: World, es: Entries, later: Entries, p: Platform, d: Digest, m: Manifest, cfg: Config)
    requires Grows(es, later) && Sound(w, es, p, d, m, cfg)
    ensures Sound(w, later, p, d, m, cfg)
  {
  }

  lemma GrowthKeepsPhase(w: World, es: Entries, later: Entries, ph: Phase)
    requires Grows(es, later) && PhaseOK(w, es, ph)
    ensures PhaseOK(w, later, ph)
  {
  }

  /** The process's own memory after a call, and after a call it believes failed. */
  ghost predicate CallOK(w: World, es: Entries, ph: Phase) {
    var (later, ph') := Call(w, es, ph);
    PhaseOK(w, later, ph') && PhaseOK(w, later, Failed(ph))
  }

  lemma NextLayerOK(w: World, es: Entries, job: Job, m: Manifest, cfg: Config, i: nat)
    requires IsManifest(job.manifest.mediaType) && Found(w, es, job.platform, job.manifest.digest, m, cfg, i)
    ensures PhaseOK(w, es, NextLayer(job, m, cfg, i))
  {
  }

  lemma ReadsKeepPhase(w: World, es: Entries, ph: Phase)
    requires PhaseOK(w, es, ph) && (ph.AtManifest? || ph.AtConfig?)
    ensures CallOK(w, es, ph)
  {
  }

  lemma ProbesKeepPhase(w: World, es: Entries, ph: Phase)
    requires PhaseOK(w, es, ph) && ph.AtLayer?
    ensures CallOK(w, es, ph)
  {
    var AtLayer(job, m, cfg, i) := ph;
    NextLayerOK(w, es, job, m, cfg, i);
    if i < |m.layers| && ValidDigest(m.layers[i].digest) && BlobEntry(m.layers[i].digest) in es {
      assert LayersStored(es, m, i + 1);
      NextLayerOK(w, es, job, m, cfg, i + 1);
    }
  }

  lemma MarkersKeepPhase(w: World, es: Entries, ph: Phase)
    requires PhaseOK(w, es, ph) && ph.AtMarker?
    ensures CallOK(w, es, ph)
  {
    var AtMarker(job, m, cfg, i) := ph;
    var (later, ph') := Call(w, es, ph);
    CallGrows(w, es, ph);
    GrowthKeepsSound(w, es, later, job.platform, job.manifest.digest, m, cfg);
    assert Checked(w, later, job, m, cfg);
    MarkedNext(es, later, m, cfg, i);
    assert ph' == NextMarker(job, m, cfg, i + 1) || i >= |m.layers|;
  }

  lemma MarkedNext(es: Entries, later: Entries, m: Manifest, cfg: Config, i: nat)
    requires Marked(es, m, cfg, i) && Grows(es, later)
    requires i < |m.layers| && i < |cfg.diffIDs| ==> MarkerEntry(cfg.diffIDs[i], m.layers[i].digest) in later
    ensures Marked(later, m, cfg, i + 1)
    ensures i >= |m.layers| || i >= |cfg.diffIDs| ==> Marked(later, m, cfg, |m.layers|)
  {
  }

  lemma LeafKeepsPhase(w: World, es: Entries, ph: Phase)
    requires IndexRoundTrip(w) && PhaseOK(w, es, ph) && (ph.AtLayout? || ph.AtIndex? || ph.AtReadBack?)
    ensures CallOK(w, es, ph)
  {
    GrowthKeepsPhase(w, es, Call(w, es, ph).0, ph);
  }

  lemma CallKeepsPhase(w: World, es: Entries, ph: Phase)
    requires IndexRoundTrip(w) && PhaseOK(w, es, ph)
    ensures CallOK(w, es, ph)
  {
    if ph.AtManifest? || ph.AtConfig? {
      ReadsKeepPhase(w, es, ph);
    } else if ph.AtLayer? {
      ProbesKeepPhase(w, es, ph);
    } else if ph.AtMarker? {
      MarkersKeepPhase(w, es, ph);
    } else if ph.AtLayout? || ph.AtIndex? || ph.AtReadBack? {
      LeafKeepsPhase(w, es, ph);
    }
  }

  /** What one call may add, with which bytes: a verified blob, a marker with its evidence, a layout, a checked leaf. */
  ghost predicate Addition(w: World, es: Entries, ph: Phase, name: Name, body: Bytes) {
    match name
    case BlobEntry(d) => w.hash(body) == d
    case MarkerEntry(diffID, blob) =>
      && ph.AtMarker? && ph.i < |ph.m.layers| && ph.i < |ph.cfg.diffIDs|
      && ph.cfg.diffIDs[ph.i] == diffID && ph.m.layers[ph.i].digest == blob && body == EMPTY_OBJECT
    case LayoutEntry(leaf) => ph.AtLayout? && leaf == ph.job.Leaf() && body == w.layout
    case IndexEntry(leaf) =>
      ph.AtIndex? && leaf == ph.job.Leaf() && body == w.encodeIndex(ph.job.ref, ph.job.platform, ph.job.manifest)
  }

  lemma CallAdds(w: World, es: Entries, ph: Phase, n: Name)
    requires n in Call(w, es, ph).0 && n !in es
    ensures Addition(w, es, ph, n, Call(w, es, ph).0[n])
  {
  }

  lemma GrowthKeepsLeaf(w: World, es: Entries, later: Entries, leaf: Leaf)
    requires Grows(es, later) && IndexEntry(leaf) in es && LeafClosed(w, es, leaf)
    ensures LeafClosed(w, later, leaf)
  {
    var job: Job, m: Manifest, cfg: Config :| PointsAt(w, es, leaf, job, m, cfg);
    GrowthKeepsSound(w, es, later, job.platform, job.manifest.digest, m, cfg);
    assert PointsAt(w, later, leaf, job, m, cfg);
  }

  lemma GrowthKeepsMarker(w: World, es: Entries, later: Entries, diffID: Digest, blob: Digest)
    requires Grows(es, later) && MarkerEntry(diffID, blob) in es && MarkerHonest(w, es, diffID, blob)
    ensures MarkerHonest(w, later, diffID, blob)
  {
    var p, d, m: Manifest, cfg: Config, i: nat :| Paired(w, es, diffID, blob, p, d, m, cfg, i);
    GrowthKeepsSound(w, es, later, p, d, m, cfg);
    assert Paired(w, later, diffID, blob, p, d, m, cfg, i);
  }

  lemma CallKeepsLeaf(w: World, es: Entries, ph: Phase, leaf: Leaf)
    requires StoreOK(w, es) && PhaseOK(w, es, ph)
    ensures LeafClosed(w, Call(w, es, ph).0, leaf)
  {
    var later := Call(w, es, ph).0;
    CallGrows(w, es, ph);
    assert LeafClosed(w, es, leaf);
    if IndexEntry(leaf) in es {
      GrowthKeepsLeaf(w, es, later, leaf);
    } else if IndexEntry(leaf) in later {
      CallAdds(w, es, ph, IndexEntry(leaf));
      GrowthKeepsPhase(w, es, later, ph);
      assert PointsAt(w, later, leaf, ph.job, ph.m, ph.cfg);
    }
  }

  lemma CallKeepsMarker(w: World, es: Entries, ph: Phase, diffID: Digest, blob: Digest)
    requires StoreOK(w, es) && PhaseOK(w, es, ph)
    ensures MarkerHonest(w, Call(w, es, ph).0, diffID, blob)
  {
    var later := Call(w, es, ph).0;
    CallGrows(w, es, ph);
    assert MarkerHonest(w, es, diffID, blob);
    if MarkerEntry(diffID, blob) in es {
      GrowthKeepsMarker(w, es, later, diffID, blob);
    } else if MarkerEntry(diffID, blob) in later {
      CallAdds(w, es, ph, MarkerEntry(diffID, blob));
      GrowthKeepsPhase(w, es, later, ph);
      assert Paired(w, later, diffID, blob, ph.job.platform, ph.job.manifest.digest, ph.m, ph.cfg, ph.i);
    }
  }

  lemma CallKeepsStore(w: World, es: Entries, ph: Phase)
    requires StoreOK(w, es) && PhaseOK(w, es, ph)
    ensures StoreOK(w, Call(w, es, ph).0)
  {
    var later := Call(w, es, ph).0;
    CallGrows(w, es, ph);
    forall leaf ensures LeafClosed(w, later, leaf) {
      CallKeepsLeaf(w, es, ph, leaf);
    }
    forall a, b ensures MarkerHonest(w, later, a, b) {
      CallKeepsMarker(w, es, ph, a, b);
    }
    forall d | BlobEntry(d) in later ensures w.hash(later[BlobEntry(d)]) == d {
      if BlobEntry(d) !in es {
        CallAdds(w, es, ph, BlobEntry(d));
      }
    }
    CallKeepsBodies(w, es, ph);
  }

  lemma CallKeepsBodies(w: World, es: Entries, ph: Phase)
    requires BodiesOK(w, es)
    ensures BodiesOK(w, Call(w, es, ph).0)
  {
    var later := Call(w, es, ph).0;
    CallGrows(w, es, ph);
    forall n | n in later && n !in es ensures Addition(w, es, ph, n, later[n]) {
      CallAdds(w, es, ph, n);
    }
  }

  lemma StepKeepsInv(w: World, s: State, p: Pid, e: Event)
    requires IndexRoundTrip(w) && Inv(w, s) && Step(w, s, p, e).Some?
    ensures Inv(w, Step(w, s, p, e).value) && Grows(s.entries, Step(w, s, p, e).value.entries)
  {
    var ph, s' := s.Phase(p), Step(w, s, p, e).value;
    assert PhaseOK(w, s.entries, ph);
    CallGrows(w, s.entries, ph);
    CallKeepsStore(w, s.entries, ph);
    CallKeepsPhase(w, s.entries, ph);
    assert Grows(s.entries, s'.entries);
    forall q: Pid
      ensures PhaseOK(w, s'.entries, s'.Phase(q))
    {
      if q != p {
        assert PhaseOK(w, s.entries, s.Phase(q));
        GrowthKeepsPhase(w, s.entries, s'.entries, s.Phase(q));
      }
    }
  }
}
