/** Marker files over paths: exactly when DiffIDBlobs returns the blobs marked for a diffID and no others. */
module MarkerFiles {
  import opened Content
  import opened ImageModel
  import opened StoreProtocol
  import opened StoreSafety
  import StoreModel = Store
  import opened EntryPaths
  import opened Listing

  /** Whatever diffID's markers lie in the directory of `d`, their blobs are marked for `d` itself. */
  ghost predicate Covers(es: Entries, d: Digest) {
    forall a, b | MarkerEntry(a, b) in es && DiffIDDir(a) == DiffIDDir(d) :: MarkerEntry(d, b) in es
  }

  ghost predicate AllCovered(es: Entries) {
    forall d | ValidDigest(d) :: Covers(es, d)
  }

  /** The marker files of a valid diffID are its markers exactly when its directory holds no others. */
  lemma FilesAreMarkersIff(es: Entries, d: Digest)
    requires ValidDigest(d) && forall a, b | MarkerEntry(a, b) in es :: ValidDigest(b)
    ensures (forall b :: HasMarkerFile(es, d, b) <==> MarkerEntry(d, b) in es) <==> Covers(es, d)
  {
    forall a, b | MarkerEntry(a, b) in es
      ensures EntryPath(MarkerEntry(a, b)) == EntryPath(MarkerEntry(d, b)) <==> DiffIDDir(a) == DiffIDDir(d)
    {
      SameMarkerFile(a, d, b);
    }
    if forall b :: HasMarkerFile(es, d, b) <==> MarkerEntry(d, b) in es {
      forall a, b | MarkerEntry(a, b) in es && DiffIDDir(a) == DiffIDDir(d) ensures MarkerEntry(d, b) in es {
        assert HasMarkerFile(es, d, b);
      }
    }
  }

  /**
   * In every reachable state DiffIDBlobs returns each blob once, and it returns exactly the blobs with a
   * marker for the diffID if and only if the diffID's directory holds no marker of another diffID for a
   * blob that it is not marked with itself.
   */
  lemma DiffIDBlobsAreTheMarkers(w: World, s: State, files: Files, diffID: Digest, items: seq<Option<string>>)
    requires IndexRoundTrip(w) && Reachable(w, s) && LeavesWellFormed(s.entries) && Renders(files, s.entries)
    requires ValidDigest(diffID) && ListsOf(files, DiffIDDir(diffID) + "/", items) && None !in items
    ensures var out := Gather(item => MarkedItem(DiffIDDir(diffID) + "/", item), items);
      && NoDuplicates(out)
      && ((forall b :: b in out <==> MarkerEntry(diffID, b) in s.entries) <==> Covers(s.entries, diffID))
  {
    ReachableDigestsValid(w, s);
    DiffIDBlobsAreTheFiles(w, s, files, diffID, items);
    FilesAreMarkersIff(s.entries, diffID);
  }

  // ---------------------------------------------------------------------------------------------
  // Which writes keep it so

  /** Every other valid diffID in whose directory the marker of `a` lies is already marked for the blob. */
  ghost predicate Fits(es: Entries, a: Digest, b: Digest) {
    forall d | ValidDigest(d) && d != a && DiffIDDir(a) == DiffIDDir(d) :: MarkerEntry(d, b) in es
  }

  lemma MarkerKeepsCover(es: Entries, a: Digest, b: Digest, body: Bytes)
    requires AllCovered(es)
    ensures AllCovered(es[MarkerEntry(a, b) := body]) <==> Fits(es, a, b)
  {
    var later := es[MarkerEntry(a, b) := body];
    if AllCovered(later) {
      forall d | ValidDigest(d) && d != a && DiffIDDir(a) == DiffIDDir(d) ensures MarkerEntry(d, b) in es {
        assert Covers(later, d) && MarkerEntry(a, b) in later;
      }
    }
    if Fits(es, a, b) {
      forall d | ValidDigest(d) ensures Covers(later, d) {
        assert Covers(es, d);
      }
    }
  }

  /** The marker this call writes, if it writes one, fits. */
  ghost predicate MarkerFits(es: Entries, ph: Phase) {
    ph.AtMarker? && ph.i < |ph.m.layers| && ph.i < |ph.cfg.diffIDs| ==>
      Fits(es, ph.cfg.diffIDs[ph.i], ph.m.layers[ph.i].digest)
  }

  lemma SameMarkersSameCover(es: Entries, later: Entries)
    requires forall a, b :: MarkerEntry(a, b) in es <==> MarkerEntry(a, b) in later
    ensures AllCovered(es) <==> AllCovered(later)
  {
    forall d ensures Covers(es, d) <==> Covers(later, d) {
    }
  }

  lemma CallKeepsCover(w: World, es: Entries, ph: Phase)
    requires AllCovered(es)
    ensures AllCovered(Call(w, es, ph).0) <==> MarkerFits(es, ph)
  {
    var later := Call(w, es, ph).0;
    if ph.AtMarker? && ph.i < |ph.m.layers| && ph.i < |ph.cfg.diffIDs| {
      var a, b := ph.cfg.diffIDs[ph.i], ph.m.layers[ph.i].digest;
      MarkerKeepsCover(es, a, b, EMPTY_OBJECT);
      SameMarkersSameCover(es[MarkerEntry(a, b) := EMPTY_OBJECT], later);
    } else {
      CallGrows(w, es, ph);
      forall a, b ensures MarkerEntry(a, b) in es <==> MarkerEntry(a, b) in later {
        if MarkerEntry(a, b) in later && MarkerEntry(a, b) !in es {
          CallAdds(w, es, ph, MarkerEntry(a, b));
        }
      }
      SameMarkersSameCover(es, later);
    }
  }

  /** Over any run: the markers are covered all along exactly when every marker written fits when it is written. */
  lemma RunKeepsCover(w: World, s: State, run: seq<(Pid, Event)>)
    requires AllCovered(s.entries) && Exec(w, s, run).Some?
    ensures Throughout(w, s, run, AllCovered) <==> CallsFit(w, s, run, MarkerFits)
  {
    forall es, ph | AllCovered(es) ensures AllCovered(Call(w, es, ph).0) <==> MarkerFits(es, ph) {
      CallKeepsCover(w, es, ph);
    }
    ThroughoutIffCallsFit(w, s, run, AllCovered, MarkerFits);
  }

  /**
   * What a committer can read off config and store before the call: each diffID in whose directory a
   * marker will lie is marked for that layer, or will be by this very config.
   */
  ghost predicate CommitFits(es: Entries, m: Manifest, cfg: Config)
    requires |cfg.diffIDs| == |m.layers|
  {
    forall i, d | 0 <= i < |m.layers| && ValidDigest(d) && DiffIDDir(cfg.diffIDs[i]) == DiffIDDir(d) ::
      var b := m.layers[i].digest;
      MarkerEntry(d, b) in es || exists j :: 0 <= j < |m.layers| && cfg.diffIDs[j] == d && m.layers[j].digest == b
  }

  lemma MarkersKeepCover(es: Entries, later: Entries, m: Manifest, cfg: Config)
    requires AllCovered(es) && |cfg.diffIDs| == |m.layers|
    requires forall a, b :: MarkerEntry(a, b) in later <==>
      MarkerEntry(a, b) in es || exists j :: 0 <= j < |m.layers| && cfg.diffIDs[j] == a && m.layers[j].digest == b
    ensures AllCovered(later) <==> CommitFits(es, m, cfg)
  {
    if AllCovered(later) {
      forall i, d | 0 <= i < |m.layers| && ValidDigest(d) && DiffIDDir(cfg.diffIDs[i]) == DiffIDDir(d)
        ensures MarkerEntry(d, m.layers[i].digest) in later
      {
        assert Covers(later, d) && MarkerEntry(cfg.diffIDs[i], m.layers[i].digest) in later;
      }
    }
    if CommitFits(es, m, cfg) {
      forall d | ValidDigest(d) ensures Covers(later, d) {
        assert Covers(es, d);
      }
    }
  }

  /** A whole commit keeps the markers covered exactly when it is refused or its markers fit. */
  lemma CommitKeepsCover(w: World, es: Entries, job: Job)
    requires IndexRoundTrip(w) && AllCovered(es)
    ensures AllCovered(StoreModel.Solo(w, es, StartCommit(job)).0) <==>
      (StoreModel.Committable(w, es, job) ==>
        var m := ReadManifest(w, es, job.manifest.digest).value;
        CommitFits(es, m, ReadConfig(w, es, m.config.digest).value))
  {
    StoreModel.SoloCommit(w, es, job);
    var later := StoreModel.Solo(w, es, StartCommit(job)).0;
    if StoreModel.Committable(w, es, job) {
      var m := ReadManifest(w, es, job.manifest.digest).value;
      var cfg := ReadConfig(w, es, m.config.digest).value;
      CommitMarkers(w, es, job, later, m, cfg);
      MarkersKeepCover(es, later, m, cfg);
    }
  }

  lemma CommitMarkers(w: World, es: Entries, job: Job, later: Entries, m: Manifest, cfg: Config)
    requires StoreModel.Committable(w, es, job) && ReadManifest(w, es, job.manifest.digest) == Some(m)
    requires ReadConfig(w, es, m.config.digest) == Some(cfg)
    requires StoreModel.Adds(es, later, StoreModel.NamesOf(w, es, job))
    ensures forall a, b :: MarkerEntry(a, b) in later <==>
      MarkerEntry(a, b) in es || exists j :: 0 <= j < |m.layers| && cfg.diffIDs[j] == a && m.layers[j].digest == b
  {
    forall a, b ensures MarkerEntry(a, b) in later <==>
      MarkerEntry(a, b) in es || exists j :: 0 <= j < |m.layers| && cfg.diffIDs[j] == a && m.layers[j].digest == b
    {
      assert MarkerEntry(a, b) in later <==> MarkerEntry(a, b) in later.Keys;
      assert MarkerEntry(a, b) in StoreModel.NamesOf(w, es, job) <==>
        MarkerEntry(a, b) in StoreModel.MarkersOf(m, cfg, 0);
    }
  }

  // ---------------------------------------------------------------------------------------------
  // Valid configs

  /** Every config in the store lists valid diffIDs. */
  ghost predicate ConfigsValid(w: World, es: Entries) {
    forall d, i | ReadConfig(w, es, d).Some? && 0 <= i < |ReadConfig(w, es, d).value.diffIDs| ::
      ValidDigest(ReadConfig(w, es, d).value.diffIDs[i])
  }

  /** Then, in every reachable state, every diffID is covered: markers come from configs. */
  lemma ValidConfigsCover(w: World, s: State)
    requires IndexRoundTrip(w) && Reachable(w, s) && ConfigsValid(w, s.entries)
    ensures AllCovered(s.entries)
  {
    forall d, a, b | ValidDigest(d) && MarkerEntry(a, b) in s.entries && DiffIDDir(a) == DiffIDDir(d)
      ensures MarkerEntry(d, b) in s.entries
    {
      var x, m, cfg, i := MarkersAreHonest(w, s, a, b);
      assert ValidDigest(ReadConfig(w, s.entries, m.config.digest).value.diffIDs[i]);
      DiffIDDirInjective(a, d);
    }
  }

  /** So a marker file can only be that diffID's own. */
  lemma MarkerFilesAreHonest(w: World, s: State, diffID: Digest, b: Digest)
    requires IndexRoundTrip(w) && Reachable(w, s) && ConfigsValid(w, s.entries) && ValidDigest(diffID)
    ensures HasMarkerFile(s.entries, diffID, b) <==> MarkerEntry(diffID, b) in s.entries
  {
    ReachableDigestsValid(w, s);
    ValidConfigsCover(w, s);
    FilesAreMarkersIff(s.entries, diffID);
  }

  /**
   * Commit does not validate the diffIDs of a config. One image whose config lists a diffID that climbs
   * back over its own directory commits, and leaves a marker file that reads as another diffID's,
   * which is then no longer covered.
   */
  lemma MalformedDiffIDMisleads(w: World, es: Entries, job: Job, m: Manifest, cfg: Config, diffID: Digest)
    requires IndexRoundTrip(w) && StoreModel.Committable(w, es, job) && IndexEntry(job.Leaf()) !in es
    requires ReadManifest(w, es, job.manifest.digest) == Some(m) && ReadConfig(w, es, m.config.digest) == Some(cfg)
    requires |m.layers| == 1 && cfg.diffIDs == [Climbing(diffID)] && ValidDigest(diffID)
    requires MarkerEntry(diffID, m.layers[0].digest) !in es
    ensures var (later, ph) := StoreModel.Solo(w, es, StartCommit(job));
      && ph == Committed(job, Ok)
      && HasMarkerFile(later, diffID, m.layers[0].digest)
      && MarkerEntry(diffID, m.layers[0].digest) !in later
      && !Covers(later, diffID)
  {
    var b := m.layers[0].digest;
    StoreModel.SoloCommit(w, es, job);
    var later := StoreModel.Solo(w, es, StartCommit(job)).0;
    ClimbingTakesMarker(diffID, b);
    SameMarkerFile(Climbing(diffID), diffID, b);
    CommitMarkers(w, es, job, later, m, cfg);
    assert MarkerEntry(cfg.diffIDs[0], m.layers[0].digest) in later;
  }
}
