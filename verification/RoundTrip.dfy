/** An image pushed from one containers-storage and pulled into another is the same image. */
module RoundTrip {
  import opened Content
  import opened ImageModel
  import opened LayerIds
  import Pull
  import Push

  /** The diffID PutLayer reports for a blob: the digest of its decompressed content. */
  function Report(
      w: World, c: Push.Codec, cache: map<Digest, Bytes>, dst: map<Digest, Bytes>, d: Digest): Option<Digest>
  {
    var b := if d in cache then Some(cache[d]) else if d in dst then Some(dst[d]) else None;
    if b.None? || c.decompress(b.value).None? then None else Some(w.hash(c.decompress(b.value).value))
  }

  /** The record is truthful: its config bytes match their digest and the chain is the config's. */
  ghost predicate TrueRecord(w: World, rec: Push.Record, m: Manifest, cfgBytes: Bytes, cfg: Config) {
    && w.manifest(rec.manifest) == Some(m)
    && rec.config(m.config.digest) == Some(cfgBytes) && w.hash(cfgBytes) == m.config.digest
    && w.config(cfgBytes) == Some(cfg)
    && rec.chain.Some? && |rec.chain.value| == |cfg.diffIDs|
    && forall i | 0 <= i < |cfg.diffIDs| :: rec.chain.value[i].diffID == cfg.diffIDs[i]
  }

  lemma ReportIsMeaning(w: World, c: Push.Codec, cache: map<Digest, Bytes>, dst: map<Digest, Bytes>,
      d: Digest, diffID: Digest)
    requires Push.Verified(w, cache) && Push.Verified(w, dst)
    requires (d in cache || d in dst) && Push.Means(w, c, d, diffID)
    ensures Report(w, c, cache, dst, d) == Some(diffID)
  {
    var b := if d in cache then cache[d] else dst[d];
    assert Push.IsLayer(w, c, b, diffID);
  }

  /** Plans and pulls an image whose blobs PutLayer reports as the config says. */
  method PlanAndPull(src: Pull.Source, storage: Pull.Storage, m: Manifest, cfg: Config, out: Pull.Outside)
    returns (err: Pull.Error)
    requires storage.Valid() && TextCollisionFree(storage.h) && Pull.Plain(storage.h, cfg.diffIDs)
    requires storage.ReadImage(src) == Some((m, cfg)) && |m.layers| == |cfg.diffIDs|
    requires (forall d :: out.fetched(d)) && Pull.Reports(out, m, cfg.diffIDs)
    modifies storage
    ensures err == Pull.NoError || err == Pull.WrongTop
    ensures err == Pull.WrongTop ==> storage.Occupied(m.config.digest.encoded, Pull.TopId(storage.h, cfg.diffIDs))
    ensures err == Pull.NoError ==>
      var id := m.config.digest.encoded;
      && id in storage.images
      && storage.images[id].config == src.config
      && storage.images[id].topLayer == Pull.TopId(storage.h, cfg.diffIDs)
      && Pull.Carries(storage.layers, storage.images[id].topLayer, cfg.diffIDs)
  {
    var plan := storage.PlanEntry(m, cfg);
    var present, missing := plan.value.present, plan.value.missing;
    forall i | |present| <= i < |m.layers| ensures m.layers[i] in missing {
      assert missing[i - |present|] == (present + missing)[i];
    }
    assert storage.Planned(missing, m, cfg.diffIDs);
    err := storage.PullEntry(src, missing, out);
  }

  /**
   * Whatever mix of original blobs, stored variants and exports the push chose, the pull finds every
   * layer's content right and ends with the same image ID, the same config and the same layer IDs.
   */
  method PushThenPull(push: Push.PushSource, rec: Push.Record, storage: Pull.Storage, name: string,
      ghost m: Manifest, cfgBytes: Bytes, cfg: Config)
    returns (pushed: bool, err: Pull.Error)
    requires push.Valid() && storage.Valid() && push.w == storage.w
    requires Push.CodecOK(push.w, push.c) && TextCollisionFree(storage.h)
    requires TrueRecord(push.w, rec, m, cfgBytes, cfg) && Pull.Plain(storage.h, cfg.diffIDs)
    requires |rec.chain.value| == |m.layers| ==> push.AllFaithful(m, rec.chain.value)
    modifies push, storage
    ensures push.Pushable(rec) ==> pushed
    ensures pushed ==> err == Pull.NoError || err == Pull.WrongTop
    ensures err == Pull.WrongTop ==> storage.Occupied(m.config.digest.encoded, Pull.TopId(storage.h, cfg.diffIDs))
    ensures pushed && err == Pull.NoError ==>
      var id := m.config.digest.encoded;
      && id in storage.images
      && storage.images[id].config == cfgBytes
      && storage.images[id].topLayer == Pull.TopId(storage.h, cfg.diffIDs)
      && Pull.Carries(storage.layers, storage.images[id].topLayer, cfg.diffIDs)
  {
    var img := push.Resolve(rec);
    if img.None? {
      return false, Pull.NoError;
    }
    pushed := true;
    var pushedManifest := push.w.manifest(img.value.bytes).value;
    var w, c, cache, dst := push.w, push.c, push.cache, push.dst;
    var out := Pull.Outside(_ => true, d => Report(w, c, cache, dst, d));
    forall i | 0 <= i < |cfg.diffIDs|
      ensures out.putLayer(pushedManifest.layers[i].digest) == Some(cfg.diffIDs[i])
    {
      var d := pushedManifest.layers[i].digest;
      assert push.InReach(d) && push.Faithful(m.layers[i], rec.chain.value[i]);
      ReportIsMeaning(w, c, cache, dst, d, cfg.diffIDs[i]);
    }
    var src := Pull.Source(name, img.value.manifest.digest, img.value.bytes, cfgBytes);
    err := PlanAndPull(src, storage, pushedManifest, cfg, out);
  }
}
