/**
 * Rebuilding an image's manifest for a push: for each layer the original blob, a stored variant, or a
 * fresh zstd export of the stored layer.
 */
module Push {
  import opened Content
  import opened ImageModel

  /** A stored layer as containers-storage records it. */
  datatype LayerRecord = LayerRecord(
    id: string, diffID: Digest, compressed: Option<Digest>, size: int, zstd: bool)

  /** Compression and containers-storage's layer export, uninterpreted. */
  datatype Codec = Codec(
    decompress: Bytes -> Option<Bytes>,
    zstd: Bytes -> Bytes,
    diff: string -> Option<Bytes>,
    encode: Manifest -> Bytes)

  ghost predicate CodecOK(w: World, c: Codec) {
    && (forall x :: c.decompress(c.zstd(x)) == Some(x))
    && (forall m: Manifest :: w.manifest(c.encode(m)) == Some(m))
  }

  /** `b` is a compressed form of the content named `diffID`. */
  ghost predicate IsLayer(w: World, c: Codec, b: Bytes, diffID: Digest) {
    c.decompress(b).Some? && w.hash(c.decompress(b).value) == diffID
  }

  /** Whatever bytes have digest `d` are a compressed form of `diffID`. */
  ghost predicate Means(w: World, c: Codec, d: Digest, diffID: Digest) {
    forall b | w.hash(b) == d :: IsLayer(w, c, b, diffID)
  }

  /** The digests recorded for a layer, where they are not its own diffID, name compressed forms of it. */
  ghost predicate HonestRecord(w: World, c: Codec, listed: Descriptor, l: LayerRecord) {
    && (listed.digest != l.diffID ==> Means(w, c, listed.digest, l.diffID))
    && (l.compressed.Some? && l.compressed.value != l.diffID ==> Means(w, c, l.compressed.value, l.diffID))
  }

  ghost predicate HonestMarkers(w: World, c: Codec, markers: Option<map<Digest, seq<Digest>>>) {
    markers.Some? ==>
      forall d, i | d in markers.value && 0 <= i < |markers.value[d]| :: Means(w, c, markers.value[d][i], d)
  }

  /** The media type told by a blob's first bytes. */
  function LayerMediaType(b: Bytes): Option<string> {
    if |b| >= 2 && b[..2] == [0x1f, 0x8b] then Some(MEDIA_TYPE_LAYER_GZIP)
    else if |b| >= 4 && b[..4] == [0x28, 0xb5, 0x2f, 0xfd] then Some(MEDIA_TYPE_LAYER_ZSTD)
    else None
  }

  /** The bytes begin as those of that compression do: a gzip header, or the magic number of a zstd frame. */
  predicate BeginsAs(b: Bytes, mediaType: string) {
    || (mediaType == "application/vnd.oci.image.layer.v1.tar+gzip" && [0x1f, 0x8b] <= b)
    || (mediaType == "application/vnd.oci.image.layer.v1.tar+zstd" && [0x28, 0xb5, 0x2f, 0xfd] <= b)
  }

  function CompressedMediaType(zstd: bool): string {
    if zstd then MEDIA_TYPE_LAYER_ZSTD else MEDIA_TYPE_LAYER_GZIP
  }

  /** The compressed blob a layer record names. */
  function Recorded(l: LayerRecord): Descriptor
    requires l.compressed.Some?
  {
    Descriptor(CompressedMediaType(l.zstd), l.compressed.value, l.size)
  }

  datatype Found = Failed | Nothing | Use(desc: Descriptor)

  /** The image a push source resolves to. */
  datatype Resolved = Resolved(manifest: Descriptor, bytes: Bytes)

  /** What containers-storage recorded for an image: its manifest, its config bytes, its layer chain. */
  datatype Record = Record(manifest: Bytes, config: Digest -> Option<Bytes>, chain: Option<seq<LayerRecord>>)

  ghost predicate Verified(w: World, blobs: map<Digest, Bytes>) {
    forall d | d in blobs :: w.hash(blobs[d]) == d
  }

  class PushSource {
    const w: World
    const c: Codec
    /** The destination store: its blobs, and its diffID markers when it can list them. */
    const dst: map<Digest, Bytes>
    const markers: Option<map<Digest, seq<Digest>>>
    var cache: map<Digest, Bytes>

    constructor (w: World, c: Codec, dst: map<Digest, Bytes>, markers: Option<map<Digest, seq<Digest>>>)
      requires Verified(w, dst) && forall d | d in dst :: ValidDigest(d)
      ensures this.w == w && this.c == c && this.dst == dst && this.markers == markers && cache == map[]
      ensures Valid()
    {
      this.w, this.c, this.dst, this.markers := w, c, dst, markers;
      cache := map[];
    }

    ghost predicate Valid()
      reads this
    {
      Verified(w, cache) && Verified(w, dst) && forall d | d in dst :: ValidDigest(d)
    }

    /** The dir the image is returned with opens this blob: from the cache, else from dst. */
    predicate InReach(d: Digest)
      reads this
    {
      d in cache || d in dst
    }

    function Open(d: Digest): (b: Option<Bytes>)
      reads this
      ensures b.Some? <==> InReach(d)
    {
      if d in cache then Some(cache[d]) else if d in dst then Some(dst[d]) else None
    }

    method Put(mediaType: string, b: Bytes) returns (desc: Descriptor)
      requires Valid()
      modifies this
      ensures Valid()
      ensures desc == Descriptor(mediaType, w.hash(b), |b|)
      ensures cache == if desc.digest in old(cache) then old(cache) else old(cache)[desc.digest := b]
    {
      desc := Descriptor(mediaType, w.hash(b), |b|);
      if desc.digest !in cache {
        cache := cache[desc.digest := b];
      }
    }

    /** The original compressed blob of a layer, as listed or as recorded, when it is in reach. */
    method AsIs(listed: Descriptor, l: LayerRecord) returns (found: Found)
      requires Valid()
      ensures found.Use? ==>
        && InReach(found.desc.digest) && found.desc.digest != l.diffID
        && (found.desc == listed || (l.compressed.Some? && found.desc == Recorded(l)))
      ensures (found.Use? && found.desc.digest == listed.digest) <==> Original(listed, l)
      ensures found.Use? && found.desc.digest == listed.digest ==> found.desc == listed
      ensures found.Nothing? && l.compressed.Some? ==> !Original(Recorded(l), l)
      ensures Decent(listed, l) ==> !found.Failed?
    {
      var candidates := [listed];
      if l.compressed.Some? && l.compressed.value != listed.digest {
        candidates := candidates + [Recorded(l)];
      }
      assert candidates[0] == listed;
      for i := 0 to |candidates|
        invariant forall k | 0 <= k < i :: !Original(candidates[k], l)
      {
        var d := candidates[i].digest;
        if d == l.diffID {
          continue; // listed uncompressed by a local build: never a compressed blob
        }
        if d in cache {
          return Use(candidates[i]);
        }
        if !ValidDigest(d) {
          return Failed;
        }
        if d in dst {
          return Use(candidates[i]);
        }
      }
      assert !Original(candidates[0], l) && !Original(candidates[|candidates| - 1], l);
      found := Nothing;
    }

    /** A blob dst already records for the diffID, when its first bytes tell a known compression. */
    method ByDiffID(diffID: Digest) returns (found: Found)
      ensures found.Use? ==>
        && found.desc.digest in dst
        && markers.Some? && diffID in markers.value && found.desc.digest in markers.value[diffID]
        && BeginsAs(dst[found.desc.digest], found.desc.mediaType)
        && found.desc.size == |dst[found.desc.digest]|
      ensures ValidDigest(diffID) ==> !found.Failed?
      // Nothing means no recorded blob qualifies.
      ensures found.Nothing? && markers.Some? && diffID in markers.value ==>
        forall b, mt | b in markers.value[diffID] && b in dst :: !BeginsAs(dst[b], mt)
    {
      if !ValidDigest(diffID) {
        return Failed;
      }
      if markers.None? || diffID !in markers.value {
        return Nothing;
      }
      var blobs := markers.value[diffID];
      for i := 0 to |blobs|
        invariant forall k | 0 <= k < i && blobs[k] in dst :: LayerMediaType(dst[blobs[k]]).None?
      {
        if blobs[i] !in dst {
          continue;
        }
        var mediaType := LayerMediaType(dst[blobs[i]]);
        if mediaType.None? {
          continue;
        }
        return Use(Descriptor(mediaType.value, blobs[i], |dst[blobs[i]]|));
      }
      found := Nothing;
    }

    /** What the cache returned for a layer's fresh export. */
    function Exported(l: LayerRecord): Descriptor
      requires c.diff(l.id).Some?
    {
      var z := c.zstd(c.diff(l.id).value);
      Descriptor("application/vnd.oci.image.layer.v1.tar+zstd", w.hash(z), |z|)
    }

    /**
     * The whole descriptor of a chosen blob: the listed one; the recorded one; that of a blob of dst,
     * with its length and the type its first bytes tell; or that of a fresh export.
     */
    ghost predicate Described(listed: Descriptor, l: LayerRecord, desc: Descriptor) {
      || desc == listed
      || (l.compressed == Some(desc.digest) && desc.size == l.size && desc.mediaType ==
          if l.zstd then "application/vnd.oci.image.layer.v1.tar+zstd"
          else "application/vnd.oci.image.layer.v1.tar+gzip")
      || (desc.digest in dst && desc.size == |dst[desc.digest]| && BeginsAs(dst[desc.digest], desc.mediaType))
      || (c.diff(l.id).Some? && desc == Exported(l))
    }

    /** The sizes that manifest and record give for a layer are those of its blobs. */
    ghost predicate TrueSizes(listed: Descriptor, l: LayerRecord) {
      && CollisionFree(w.hash)
      && (forall b | w.hash(b) == listed.digest :: listed.size == |b|)
      && (l.compressed.Some? ==> forall b | w.hash(b) == l.compressed.value :: l.size == |b|)
    }

    /** Then a described blob that is in reach has the size its descriptor says. */
    lemma DescribedSize(listed: Descriptor, l: LayerRecord, desc: Descriptor)
      requires Valid() && Described(listed, l, desc) && TrueSizes(listed, l) && InReach(desc.digest)
      ensures desc.size == |Open(desc.digest).value|
    {
      var b := Open(desc.digest).value;
      assert w.hash(b) == desc.digest;
    }

    /** Compresses the layer's diff into the cache and checks that the diff still is the recorded one. */
    method ExportZstd(l: LayerRecord) returns (desc: Option<Descriptor>)
      requires Valid()
      modifies this
      ensures Valid() && cache.Keys >= old(cache).Keys
      ensures desc.Some? <==> c.diff(l.id).Some? && w.hash(c.diff(l.id).value) == l.diffID
      ensures desc.Some? ==>
        && desc.value.digest in cache
        && desc.value == Exported(l)
    {
      var diff := c.diff(l.id);
      if diff.None? {
        return None;
      }
      var d := Put(MEDIA_TYPE_LAYER_ZSTD, c.zstd(diff.value));
      if w.hash(diff.value) != l.diffID {
        return None;
      }
      desc := Some(d);
    }

    /** The layer's descriptor: as is, else a stored variant, else a fresh export. */
    method Choose(listed: Descriptor, l: LayerRecord) returns (desc: Option<Descriptor>, original: bool)
      requires Valid()
      modifies this
      ensures Valid() && cache.Keys >= old(cache).Keys
      ensures desc.Some? ==> InReach(desc.value.digest)
      ensures desc.Some? ==> Candidate(listed, l, desc.value.digest) && Described(listed, l, desc.value)
      ensures desc.Some? && Faithful(listed, l) ==> Means(w, c, desc.value.digest, l.diffID)
      ensures desc.Some? ==> (original <==> old(Original(listed, l)))
      ensures desc.Some? && original ==> desc.value == listed && cache == old(cache)
      ensures Decent(listed, l) && ValidDigest(l.diffID) && Exportable(l) ==> desc.Some?
    {
      var found := AsIs(listed, l);
      if found.Failed? {
        return None, false;
      }
      if found.Use? {
        return Some(found.desc), found.desc.digest == listed.digest;
      }
      found := ByDiffID(l.diffID);
      if found.Failed? {
        return None, false;
      }
      if found.Use? {
        return Some(found.desc), false;
      }
      desc := ExportZstd(l);
      original := false;
      if desc.Some? && CollisionFree(w.hash) && CodecOK(w, c) {
        ExportMeans(l);
      }
    }

    /** What makes a layer's recorded blobs, markers and exports all the same content. */
    ghost predicate Faithful(listed: Descriptor, l: LayerRecord) {
      CollisionFree(w.hash) && CodecOK(w, c) && HonestRecord(w, c, listed, l) && HonestMarkers(w, c, markers)
    }

    lemma ExportMeans(l: LayerRecord)
      requires CollisionFree(w.hash) && CodecOK(w, c) && Exportable(l)
      ensures Means(w, c, w.hash(c.zstd(c.diff(l.id).value)), l.diffID)
    {
    }

    /** The listed blob is a compressed one and is in reach. */
    predicate Original(listed: Descriptor, l: LayerRecord)
      reads this
    {
      listed.digest != l.diffID && InReach(listed.digest)
    }

    /** Where a chosen blob can come from: the listing, the record, a marker of dst, a fresh export. */
    predicate Candidate(listed: Descriptor, l: LayerRecord, d: Digest) {
      || d == listed.digest
      || l.compressed == Some(d)
      || (markers.Some? && l.diffID in markers.value && d in markers.value[l.diffID] && d in dst)
      || (c.diff(l.id).Some? && d == w.hash(c.zstd(c.diff(l.id).value)))
    }

    /** The recorded digests are well formed. */
    predicate Decent(listed: Descriptor, l: LayerRecord) {
      ValidDigest(listed.digest) && (l.compressed.Some? ==> ValidDigest(l.compressed.value))
    }

    /** The stored layer can be read and still has its diffID. */
    predicate Exportable(l: LayerRecord) {
      c.diff(l.id).Some? && w.hash(c.diff(l.id).value) == l.diffID
    }

    /** Every listed layer blob is a compressed one and is in reach. */
    ghost predicate AllOriginal(m: Manifest, chain: seq<LayerRecord>)
      requires |chain| == |m.layers|
      reads this
    {
      forall i | 0 <= i < |chain| :: Original(m.layers[i], chain[i])
    }

    ghost predicate AllFaithful(m: Manifest, chain: seq<LayerRecord>)
      requires |chain| == |m.layers|
    {
      forall i | 0 <= i < |chain| :: Faithful(m.layers[i], chain[i])
    }

    /** Nothing stands in the way of a push: documents there, counts equal, every layer readable. */
    ghost predicate Pushable(rec: Record) {
      && w.manifest(rec.manifest).Some?
      && var m := w.manifest(rec.manifest).value;
      && rec.config(m.config.digest).Some?
      && rec.chain.Some? && |rec.chain.value| == |m.layers|
      && forall i | 0 <= i < |m.layers| ::
        var l := rec.chain.value[i]; Decent(m.layers[i], l) && ValidDigest(l.diffID) && Exportable(l)
    }

    /** The encoding of an OCI manifest with the stored config under the OCI config type. */
    ghost predicate Rebuilt(m: Manifest, bytes: Bytes) {
      exists layers ::
        |layers| == |m.layers|
        && bytes == c.encode(Manifest(MEDIA_TYPE_MANIFEST, m.config.(mediaType := MEDIA_TYPE_CONFIG), layers))
    }

    /** A layer's choice: in reach, from where it may come, described as it is, and of the right content. */
    ghost predicate Chosen(listed: Descriptor, l: LayerRecord, desc: Descriptor)
      reads this
    {
      && InReach(desc.digest) && Candidate(listed, l, desc.digest) && Described(listed, l, desc)
      && (Faithful(listed, l) ==> Means(w, c, desc.digest, l.diffID))
    }

    ghost predicate AllChosen(m: Manifest, chain: seq<LayerRecord>, layers: seq<Descriptor>)
      requires |layers| <= |chain| == |m.layers|
      reads this
    {
      forall i | 0 <= i < |layers| :: Chosen(m.layers[i], chain[i], layers[i])
    }

    /** With true sizes in manifest and record, every chosen descriptor has the size of its blob. */
    ghost predicate AllSized(m: Manifest, chain: seq<LayerRecord>, layers: seq<Descriptor>)
      requires |layers| == |chain| == |m.layers|
      reads this
    {
      forall i | 0 <= i < |layers| && TrueSizes(m.layers[i], chain[i]) ::
        InReach(layers[i].digest) && layers[i].size == |Open(layers[i].digest).value|
    }

    lemma ChosenAreSized(m: Manifest, chain: seq<LayerRecord>, layers: seq<Descriptor>)
      requires Valid() && |layers| == |chain| == |m.layers| && AllChosen(m, chain, layers)
      ensures AllSized(m, chain, layers)
    {
      forall i | 0 <= i < |layers| && TrueSizes(m.layers[i], chain[i])
        ensures InReach(layers[i].digest) && layers[i].size == |Open(layers[i].digest).value|
      {
        assert Chosen(m.layers[i], chain[i], layers[i]);
        DescribedSize(m.layers[i], chain[i], layers[i]);
      }
    }

    /** The loop over the layers, bottom first. */
    method ChooseAll(m: Manifest, chain: seq<LayerRecord>) returns (layers: Option<seq<Descriptor>>, asIs: bool)
      requires Valid() && |chain| == |m.layers|
      modifies this
      ensures Valid() && cache.Keys >= old(cache).Keys
      ensures layers.Some? ==> |layers.value| == |chain|
      ensures layers.Some? ==> (asIs <==> old(AllOriginal(m, chain)))
      ensures layers.Some? && asIs ==> layers.value == m.layers
      ensures layers.Some? ==> AllChosen(m, chain, layers.value) && AllSized(m, chain, layers.value)
      ensures (forall i | 0 <= i < |chain| ::
        Decent(m.layers[i], chain[i]) && ValidDigest(chain[i].diffID) && Exportable(chain[i])) ==> layers.Some?
    {
      var chosen: seq<Descriptor> := [];
      asIs := true;
      for i := 0 to |chain|
        invariant |chosen| == i && Valid() && cache.Keys >= old(cache).Keys
        invariant asIs <==> forall k | 0 <= k < i :: old(Original(m.layers[k], chain[k]))
        invariant asIs ==> chosen == m.layers[..i] && cache == old(cache)
        invariant AllChosen(m, chain, chosen)
      {
        var desc, original := Choose(m.layers[i], chain[i]);
        if desc.None? {
          return None, false;
        }
        asIs := asIs && original;
        chosen := chosen + [desc.value];
      }
      layers := Some(chosen);
      ChosenAreSized(m, chain, chosen);
    }

    /**
     * The image to push. At every position the chosen blob is in reach and is a compressed form of that
     * layer's diffID; config and layer count stay; the stored manifest is reused byte for byte exactly
     * when every listed blob is a compressed one already in reach.
     */
    method Resolve(rec: Record) returns (img: Option<Resolved>)
      requires Valid()
      modifies this
      ensures Valid() && cache.Keys >= old(cache).Keys
      ensures Pushable(rec) ==> img.Some?
      ensures img.Some? ==>
        && w.manifest(rec.manifest).Some? && rec.chain.Some?
        && var m, chain := w.manifest(rec.manifest).value, rec.chain.value;
        && |chain| == |m.layers|
        && img.value.manifest.digest == w.hash(img.value.bytes) && InReach(img.value.manifest.digest)
        && img.value.manifest.size == |img.value.bytes|
        && rec.config(m.config.digest).Some? && InReach(w.hash(rec.config(m.config.digest).value))
        && (if old(AllOriginal(m, chain)) then img.value == Resolved(
              Descriptor(m.mediaType, w.hash(rec.manifest), |rec.manifest|), rec.manifest)
            else img.value.manifest.mediaType == MEDIA_TYPE_MANIFEST && Rebuilt(m, img.value.bytes))
        && (CodecOK(w, c) ==>
          && w.manifest(img.value.bytes).Some?
          && var m' := w.manifest(img.value.bytes).value;
          && (!old(AllOriginal(m, chain)) ==> m'.mediaType == MEDIA_TYPE_MANIFEST)
          && (!old(AllOriginal(m, chain)) ==>
                m'.config == m.config.(mediaType := "application/vnd.oci.image.config.v1+json"))
          && m'.config.digest == m.config.digest && m'.config.size == m.config.size
          && |m'.layers| == |chain|
          && AllChosen(m, chain, m'.layers) && AllSized(m, chain, m'.layers))
    {
      var mo := w.manifest(rec.manifest);
      if mo.None? {
        return None;
      }
      var m := mo.value;
      var cfg := rec.config(m.config.digest);
      if cfg.None? || rec.chain.None? || |rec.chain.value| != |m.layers| {
        return None;
      }
      var layers, asIs := ChooseAll(m, rec.chain.value);
      if layers.None? {
        return None;
      }
      var cfgDesc := Put(m.config.mediaType, cfg.value);
      var bytes, mediaType := rec.manifest, m.mediaType;
      if !asIs {
        mediaType := MEDIA_TYPE_MANIFEST;
        bytes := c.encode(Manifest(mediaType, m.config.(mediaType := MEDIA_TYPE_CONFIG), layers.value));
      }
      var md := Put(mediaType, bytes);
      ChosenAreSized(m, rec.chain.value, layers.value);
      img := Some(Resolved(md, bytes));
    }
  }

  /**
   * Keeping every layer's digest is not enough for the manifest to be reused: when the listed blob is
   * out of reach and the fresh export happens to reproduce it, the manifest is written anew.
   */
  method ExportReproducesListed(w: World, c: Codec, x: Bytes, stored: Bytes, config: Bytes, m: Manifest)
    returns (img: Resolved)
    requires CodecOK(w, c) && w.manifest(stored) == Some(m) && m.mediaType == MEDIA_TYPE_DOCKER_MANIFEST
    requires |m.layers| == 1 && m.layers[0].digest == w.hash(c.zstd(x)) && c.diff("layer") == Some(x)
    requires ValidDigest(w.hash(x)) && ValidDigest(w.hash(c.zstd(x)))
    ensures img.bytes != stored
    ensures w.manifest(img.bytes).Some? && |w.manifest(img.bytes).value.layers| == 1
    ensures w.manifest(img.bytes).value.layers[0].digest == m.layers[0].digest
  {
    var ps := new PushSource(w, c, map[], Some(map[]));
    var l := LayerRecord("layer", w.hash(x), None, 0, false);
    var rec := Record(stored, _ => Some(config), Some([l]));
    assert !ps.Original(m.layers[0], l);
    assert !ps.AllOriginal(m, [l]);
    assert ps.Decent(m.layers[0], l) && ps.Exportable(l);
    var r := ps.Resolve(rec);
    img := r.value;
  }
}
