/** Closure of all of shared/blobs: exactly which uploads keep stored manifests with their config and layers. */
module BareManifests {
  import opened Content
  import opened ImageModel
  import opened StoreProtocol
  import opened StoreSafety
  import StoreModel = Store

  /** The manifest a blob is, when it says it is one and decodes: what Resolve by digest answers with. */
  function AsManifest(w: World, body: Bytes): Option<Manifest> {
    match w.mediaType(body)
    case None => None
    case Some(mt) => if IsManifest(mt) then w.manifest(body) else None
  }

  ghost predicate PartsIn(es: Entries, m: Manifest) {
    BlobEntry(m.config.digest) in es && forall i | 0 <= i < |m.layers| :: BlobEntry(m.layers[i].digest) in es
  }

  /** The blob stored under `d` is no manifest, or its config and layers are stored too. */
  ghost predicate BlobClosed(w: World, es: Entries, d: Digest) {
    match ReadBlob(w, es, d)
    case None => true
    case Some(body) => AsManifest(w, body).Some? ==> PartsIn(es, AsManifest(w, body).value)
  }

  /** Every stored manifest has its config and layers, whether a leaf names it or not. */
  ghost predicate BareClosed(w: World, es: Entries) {
    forall d :: BlobClosed(w, es, d)
  }

  /** A call that is about to store a manifest finds its config and layers stored, the blob itself counted in. */
  ghost predicate PartsFirst(w: World, es: Entries, ph: Phase) {
    ph.AtCreate? && BlobEntry(ph.desc.digest) !in es
      && Verifies(w.hash, ph.body, ph.desc.size, Some(ph.desc.digest)) && AsManifest(w, ph.body).Some?
    ==> PartsIn(es[BlobEntry(ph.desc.digest) := ph.body], AsManifest(w, ph.body).value)
  }

  lemma GrowthKeepsBlobClosed(w: World, es: Entries, later: Entries, d: Digest)
    requires Grows(es, later) && BlobEntry(d) in es && BlobClosed(w, es, d)
    ensures BlobClosed(w, later, d)
  {
  }

  lemma SameBlobsSameClosed(w: World, es: Entries, later: Entries)
    requires Grows(es, later) && forall d :: BlobEntry(d) in es <==> BlobEntry(d) in later
    ensures BareClosed(w, es) <==> BareClosed(w, later)
  {
    forall d ensures BlobClosed(w, es, d) <==> BlobClosed(w, later, d) {
    }
  }

  lemma BlobKeepsBareClosed(w: World, es: Entries, d: Digest, body: Bytes)
    requires BareClosed(w, es) && BlobEntry(d) !in es && w.hash(body) == d
    ensures BareClosed(w, es[BlobEntry(d) := body]) <==>
      (AsManifest(w, body).Some? ==> PartsIn(es[BlobEntry(d) := body], AsManifest(w, body).value))
  {
    var later := es[BlobEntry(d) := body];
    assert ReadBlob(w, later, d) == Some(body);
    if BareClosed(w, later) {
      assert BlobClosed(w, later, d);
    }
    forall x | BlobEntry(x) in es ensures BlobClosed(w, later, x) {
      assert BlobClosed(w, es, x);
      GrowthKeepsBlobClosed(w, es, later, x);
    }
  }

  /** One backend call keeps shared/blobs closed exactly when it does not store a manifest before its parts. */
  lemma CallKeepsBareClosed(w: World, es: Entries, ph: Phase)
    requires BareClosed(w, es)
    ensures BareClosed(w, Call(w, es, ph).0) <==> PartsFirst(w, es, ph)
  {
    var later := Call(w, es, ph).0;
    CallGrows(w, es, ph);
    var verified := ph.AtCreate? && Verifies(w.hash, ph.body, ph.desc.size, Some(ph.desc.digest));
    if verified && BlobEntry(ph.desc.digest) !in es {
      BlobKeepsBareClosed(w, es, ph.desc.digest, ph.body);
    } else {
      SameBlobsSameClosed(w, es, later);
    }
  }

  /** Over any run: shared/blobs is closed all along exactly when no manifest is ever stored before its parts. */
  lemma RunKeepsBareClosed(w: World, s: State, run: seq<(Pid, Event)>)
    requires BareClosed(w, s.entries) && Exec(w, s, run).Some?
    ensures Throughout(w, s, run, es => BareClosed(w, es)) <==> CallsFit(w, s, run, (es, ph) => PartsFirst(w, es, ph))
  {
    var good, fits := (es: Entries) => BareClosed(w, es), (es: Entries, ph: Phase) => PartsFirst(w, es, ph);
    forall es, ph | good(es) ensures good(Call(w, es, ph).0) <==> fits(es, ph) {
      CallKeepsBareClosed(w, es, ph);
    }
    ThroughoutIffCallsFit(w, s, run, good, fits);
  }

  /** A whole PutBlob: what its caller can check before the call. */
  lemma PutKeepsBareClosed(w: World, es: Entries, desc: Descriptor, body: Bytes)
    requires BareClosed(w, es)
    ensures BareClosed(w, StoreModel.Solo(w, es, StartPut(desc, body)).0) <==>
      PartsFirst(w, es, AtCreate(desc, body))
  {
    StoreModel.SoloPut(w, es, desc, body);
    if StoreModel.Solo(w, es, StartPut(desc, body)).0 != es {
      BlobKeepsBareClosed(w, es, desc.digest, body);
    }
  }

  /**
   * In a reachable state whose shared/blobs is closed, every image Resolve answers with, from a leaf or
   * bare, has its config and layers stored, as far as its manifest decodes.
   */
  lemma ResolvedIsClosed(w: World, s: State, ref: Reference, p: Platform)
    requires IndexRoundTrip(w) && Reachable(w, s) && BareClosed(w, s.entries)
    requires Resolve(w, s.entries, ref, p).Some?
    ensures var r := Resolve(w, s.entries, ref, p).value;
      ReadManifest(w, s.entries, r.manifest.digest).Some? ==>
        PartsIn(s.entries, ReadManifest(w, s.entries, r.manifest.digest).value)
  {
    var r := Resolve(w, s.entries, ref, p).value;
    if r.fromLeaf {
      var job, m, cfg := LeavesAreClosed(w, s, LeafOf(ref, p));
    } else {
      assert BlobClosed(w, s.entries, r.manifest.digest);
    }
  }
}
