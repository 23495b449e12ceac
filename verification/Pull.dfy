/**
 * Pulling images into containers-storage while other pulls add layers.
 *
 * `Storage.Interfere` stands for everything other users of the storage do between two of our calls:
 * the methods below are verified against its contract only, so they are right whatever it does.
 */
module Pull {
  import opened Content
  import opened ImageModel
  import opened LayerIds

  /** A stored layer; the empty parent is no parent. */
  datatype Layer = Layer(parent: string, diffID: Digest, compressed: Option<Digest>, size: nat, zstd: bool)

  type Layers = map<string, Layer>

  /** The layers from `id` down its parent links carry the diffIDs `ds`, topmost last. */
  ghost predicate Carries(layers: Layers, id: string, ds: seq<Digest>)
    decreases |ds|
  {
    if ds == [] then id == ""
    else
      && id != "" && id in layers
      && layers[id].diffID == ds[|ds| - 1]
      && Carries(layers, layers[id].parent, ds[..|ds| - 1])
  }

  /** DiffID sequences for which chain IDs are unambiguous. */
  ghost predicate Plain(h: TextHash, ds: seq<Digest>) {
    AllValid(ds) && (ds != [] ==> NoLink(h, ds[0]))
  }

  /** Every layer stored under a chain ID carries that diffID chain. */
  ghost predicate ChainsOK(h: TextHash, layers: Layers) {
    forall ds: seq<Digest> | ds != [] && Plain(h, ds) && ChainId(h, ds) in layers :: Carries(layers, ChainId(h, ds), ds)
  }

  ghost predicate GrowsTo(layers: Layers, later: Layers) {
    forall id | id in layers :: id in later && later[id] == layers[id]
  }

  lemma {:induction false} GrowthKeepsCarries(layers: Layers, later: Layers, id: string, ds: seq<Digest>)
    requires GrowsTo(layers, later) && Carries(layers, id, ds)
    ensures Carries(later, id, ds)
    decreases |ds|
  {
    if ds != [] {
      GrowthKeepsCarries(layers, later, layers[id].parent, ds[..|ds| - 1]);
    }
  }

  /** A layer determines what its chain carries. */
  lemma {:induction false} CarriesUnique(layers: Layers, id: string, ds: seq<Digest>, es: seq<Digest>)
    requires Carries(layers, id, ds) && Carries(layers, id, es)
    ensures ds == es
    decreases |ds|
  {
    if ds != [] && es != [] {
      CarriesUnique(layers, layers[id].parent, ds[..|ds| - 1], es[..|es| - 1]);
      assert ds == ds[..|ds| - 1] + [ds[|ds| - 1]] && es == es[..|es| - 1] + [es[|es| - 1]];
    }
  }

  /** Adding the next layer of a plain chain on top of what is there keeps every chain ID truthful. */
  lemma AddKeepsChains(h: TextHash, layers: Layers, ds: seq<Digest>, layer: Layer)
    requires TextCollisionFree(h) && ChainsOK(h, layers) && ds != [] && Plain(h, ds)
    requires var id := ChainId(h, ds); id != "" && id !in layers
    requires layer.diffID == ds[|ds| - 1] && Carries(layers, layer.parent, ds[..|ds| - 1])
    ensures var later := layers[ChainId(h, ds) := layer];
      ChainsOK(h, later) && Carries(later, ChainId(h, ds), ds)
  {
    var id := ChainId(h, ds);
    var later := layers[id := layer];
    GrowthKeepsCarries(layers, later, layer.parent, ds[..|ds| - 1]);
    forall es: seq<Digest> | es != [] && Plain(h, es) && ChainId(h, es) in later
      ensures Carries(later, ChainId(h, es), es)
    {
      if ChainId(h, es) == id {
        ChainIdInjective(h, ds, es);
      } else {
        GrowthKeepsCarries(layers, later, ChainId(h, es), es);
      }
    }
  }

  // ---------------------------------------------------------------------------------------------
  // The storage

  datatype Image = Image(config: Bytes, topLayer: string, manifest: Bytes, names: set<string>)

  datatype Error = NoError | BadImage | FetchFailed | NotCached | PutFailed | ParentGone | WrongDiffID | WrongTop

  /** The image a plan entry resolved to: its manifest digest, and what reading its two documents gave. */
  datatype Source = Source(name: string, digest: Digest, manifest: Bytes, config: Bytes)

  datatype Split = Split(present: seq<Descriptor>, missing: seq<Descriptor>)

  /** What calls outside this repository answer: a download's success, the diffID PutLayer reports. */
  datatype Outside = Outside(fetched: Digest -> bool, putLayer: Digest -> Option<Digest>)

  /** PutLayer finds the content of each blob to be the layer the config lists there. */
  ghost predicate Reports(out: Outside, m: Manifest, diffIDs: seq<Digest>)
    requires |m.layers| == |diffIDs|
  {
    forall i | 0 <= i < |diffIDs| :: out.putLayer(m.layers[i].digest) == Some(diffIDs[i])
  }

  /** The top layer ID of an image with these diffIDs; none for an image without layers. */
  function TopId(h: TextHash, ds: seq<Digest>): string {
    if ds == [] then "" else ChainId(h, ds)
  }

  /** Records stay, over the same top layer, and keep their names. */
  ghost predicate ImagesGrow(before: map<string, Image>, after: map<string, Image>) {
    forall id | id in before ::
      id in after && after[id].topLayer == before[id].topLayer && before[id].names <= after[id].names
  }

  class Storage {
    const h: TextHash
    const w: World
    var layers: Layers
    var images: map<string, Image>
    var cached: set<Digest>

    constructor (h: TextHash, w: World)
      ensures Valid() && this.h == h && this.w == w && layers == map[] && images == map[]
    {
      this.h := h;
      this.w := w;
      layers := map[];
      images := map[];
      cached := {};
      new;
      assert forall ds: seq<Digest> | ds != [] :: ChainId(h, ds) !in layers;
    }

    /** Chain IDs are truthful, and each image's top layer carries exactly its config's diffIDs. */
    ghost predicate Valid()
      reads this
    {
      ChainsOK(h, layers) && forall id | id in images :: ImageOK(layers, images[id])
    }

    ghost predicate ImageOK(layers: Layers, img: Image) {
      w.config(img.config).Some? ==> Carries(layers, img.topLayer, w.config(img.config).value.diffIDs)
    }

    /** Other pulls and other tools add layers and images and keep the storage valid. */
    method Interfere()
      requires Valid()
      modifies this
      ensures Valid() && GrowsTo(old(layers), layers)
      ensures ImagesGrow(old(images), images)
      ensures forall id | id in old(images) :: images[id].config == old(images)[id].config
      ensures old(cached) <= cached
    {
    }

    /** Splits the layers at the end of the chain prefix that is present; None when the counts differ. */
    method PlanEntry(m: Manifest, cfg: Config) returns (plan: Option<Split>)
      requires Valid()
      ensures plan.None? <==> |cfg.diffIDs| != |m.layers|
      ensures plan.Some? ==>
        var k := |plan.value.present|;
        && plan.value.present + plan.value.missing == m.layers
        && (forall i | 0 <= i < k :: ChainIds(h, cfg.diffIDs)[i] in layers)
        && (k < |m.layers| ==> ChainIds(h, cfg.diffIDs)[k] !in layers)
        // What is skipped is the right content.
        && (k > 0 && Plain(h, cfg.diffIDs) ==>
          Carries(layers, ChainIds(h, cfg.diffIDs)[k - 1], cfg.diffIDs[..k]))
    {
      if |cfg.diffIDs| != |m.layers| {
        return None;
      }
      var ids := ComputeChainIds(h, cfg.diffIDs);
      var k := 0;
      while k < ids.Length
        invariant k <= |cfg.diffIDs|
        invariant forall i | 0 <= i < k :: ChainIds(h, cfg.diffIDs)[i] in layers
      {
        assert ids[k] == ids[..][k];
        if ids[k] !in layers {
          break;
        }
        k := k + 1;
      }
      plan := Some(Split(m.layers[..k], m.layers[k..]));
      if k > 0 && Plain(h, cfg.diffIDs) {
        var ds := cfg.diffIDs[..k];
        assert ChainIds(h, cfg.diffIDs)[k - 1] == ChainId(h, ds);
      }
    }

    /**
     * Applies one layer as one step: PutLayer, then the check of the diffID it reports, with the layer
     * deleted again when that differs. An ID that appeared meanwhile is reused when its diffID agrees.
     */
    method ApplyLayer(id: string, parent: string, l: Descriptor, diffID: Digest, out: Outside) returns (err: Error)
      modifies this`layers
      ensures err == NoError ==> id in layers && layers[id].diffID == diffID
      ensures id in old(layers) || err != NoError ==> layers == old(layers)
      ensures err == NotCached ==> l.digest !in cached
      ensures err == WrongDiffID || err == PutFailed ==>
        if id in old(layers) then old(layers)[id].diffID != diffID else out.putLayer(l.digest) != Some(diffID)
      ensures err == ParentGone ==> parent != "" && parent !in old(layers)
      ensures err in {NoError, NotCached, WrongDiffID, PutFailed, ParentGone}
      ensures id !in old(layers) && err == NoError ==>
        (parent == "" || parent in old(layers))
        && layers == old(layers)[id := Layer(parent, diffID, Some(l.digest), if l.size < 0 then 0 else l.size, false)]
    {
      if l.digest !in cached {
        return NotCached;
      }
      if id in layers {
        return if layers[id].diffID == diffID then NoError else WrongDiffID;
      }
      if parent != "" && parent !in layers {
        return ParentGone;
      }
      var reported := out.putLayer(l.digest);
      if reported.None? {
        return PutFailed;
      }
      if reported.value != diffID {
        return WrongDiffID;
      }
      layers := layers[id := Layer(parent, diffID, Some(l.digest), if l.size < 0 then 0 else l.size, false)];
      err := NoError;
    }

    /** Downloads what planning found missing. */
    method FetchAll(missing: seq<Descriptor>, out: Outside) returns (err: Error)
      requires Valid()
      modifies this
      ensures Valid() && GrowsTo(old(layers), layers) && ImagesGrow(old(images), images)
      ensures err == NoError ==> forall i | 0 <= i < |missing| :: missing[i].digest in cached
      ensures err == NoError || err == FetchFailed
      ensures err == FetchFailed ==> exists i :: 0 <= i < |missing| && !out.fetched(missing[i].digest)
    {
      for i := 0 to |missing|
        invariant Valid() && GrowsTo(old(layers), layers) && ImagesGrow(old(images), images)
        invariant forall k | 0 <= k < i :: missing[k].digest in cached
      {
        if missing[i].digest !in cached {
          if !out.fetched(missing[i].digest) {
            return FetchFailed;
          }
          cached := cached + {missing[i].digest};
        }
        Interfere();
      }
      err := NoError;
    }

    /** The layer on top of `parent` that makes the chain carry `ds`: kept when it is there, else applied. */
    method ApplyNext(id: string, parent: string, l: Descriptor, diffID: Digest, ghost ds: seq<Digest>, out: Outside)
      returns (err: Error)
      requires Valid() && TextCollisionFree(h) && ds != [] && Plain(h, ds)
      requires id == ChainId(h, ds) && diffID == ds[|ds| - 1] && Carries(layers, parent, ds[..|ds| - 1])
      modifies this
      ensures Valid() && GrowsTo(old(layers), layers) && ImagesGrow(old(images), images) && old(cached) <= cached
      ensures err == NoError ==> Carries(layers, id, ds)
      ensures err != WrongTop && err != BadImage
      ensures id in old(layers) || (l.digest in old(cached) && out.putLayer(l.digest) == Some(diffID)) ==>
        err == NoError
    {
      ChainIdNotEmpty(h, ds);
      var present := id in layers;
      ghost var before := layers;
      Interfere();
      GrowthKeepsCarries(before, layers, parent, ds[..|ds| - 1]);
      err := NoError;
      if !present {
        before := layers;
        err := ApplyLayer(id, parent, l, diffID, out);
        if err == NoError && id !in before {
          AddKeepsChains(h, before, ds, layers[id]);
          ImagesSurvive(before, layers);
        }
      }
    }

    /** Layer by layer from the bottom: keep what is there, apply what is not. */
    method ApplyAll(m: Manifest, diffIDs: seq<Digest>, out: Outside) returns (err: Error, parent: string)
      requires Valid() && TextCollisionFree(h) && Plain(h, diffIDs) && |m.layers| == |diffIDs|
      modifies this
      ensures Valid() && GrowsTo(old(layers), layers) && ImagesGrow(old(images), images)
      ensures err == NoError ==> Carries(layers, parent, diffIDs) && parent == TopId(h, diffIDs)
      ensures err != WrongTop && err != BadImage
      ensures old(Ready(m, diffIDs)) && Reports(out, m, diffIDs) ==> err == NoError
    {
      var ids := ComputeChainIds(h, diffIDs);
      parent := "";
      for i := 0 to |m.layers|
        invariant Valid() && GrowsTo(old(layers), layers) && ImagesGrow(old(images), images)
        invariant Carries(layers, parent, diffIDs[..i]) && parent == TopId(h, diffIDs[..i])
        invariant old(cached) <= cached
        invariant ids[..] == ChainIds(h, diffIDs)
      {
        assert ids[i] == ids[..][i] == ChainId(h, diffIDs[..i + 1]);
        assert diffIDs[..i + 1][..i] == diffIDs[..i];
        err := ApplyNext(ids[i], parent, m.layers[i], diffIDs[i], diffIDs[..i + 1], out);
        if err != NoError {
          return;
        }
        parent := ids[i];
      }
      assert diffIDs[..|m.layers|] == diffIDs;
      err := NoError;
    }

    /** Every layer is there already or its blob is in the cache. */
    ghost predicate Ready(m: Manifest, diffIDs: seq<Digest>)
      requires |m.layers| == |diffIDs|
      reads this
    {
      forall i | 0 <= i < |diffIDs| :: ChainIds(h, diffIDs)[i] in layers || m.layers[i].digest in cached
    }

    /** Every layer is there already or is listed as missing. */
    ghost predicate Planned(missing: seq<Descriptor>, m: Manifest, diffIDs: seq<Digest>)
      requires |m.layers| == |diffIDs|
      reads this
    {
      forall i | 0 <= i < |diffIDs| :: ChainIds(h, diffIDs)[i] in layers || m.layers[i] in missing
    }

    lemma ImagesSurvive(before: Layers, later: Layers)
      requires GrowsTo(before, later)
      requires forall id | id in images :: ImageOK(before, images[id])
      ensures forall id | id in images :: ImageOK(later, images[id])
    {
      forall id | id in images && w.config(images[id].config).Some?
        ensures Carries(later, images[id].topLayer, w.config(images[id].config).value.diffIDs)
      {
        GrowthKeepsCarries(before, later, images[id].topLayer, w.config(images[id].config).value.diffIDs);
      }
    }

    function NamesOf(id: string): set<string>
      reads this
    {
      if id in images then images[id].names else {}
    }

    /** Creates the image record under the config digest, or extends one with the same top layer. */
    method WriteImage(src: Source, m: Manifest, top: string) returns (err: Error)
      requires Valid() && w.hash(src.config) == m.config.digest
      requires w.config(src.config).Some? ==> Carries(layers, top, w.config(src.config).value.diffIDs)
      modifies this`images
      ensures Valid() && ImagesGrow(old(images), images)
      ensures var id := m.config.digest.encoded;
        && (err == NoError <==> id !in old(images) || old(images)[id].topLayer == top)
        && (err == NoError || err == WrongTop)
        && (err == NoError ==>
          && id in images && images[id].topLayer == top
          && images[id].names == old(NamesOf(id)) + {src.name}
          && images[id].config == src.config && images[id].manifest == src.manifest)
        && (err != NoError ==> images == old(images))
        && images - {id} == old(images) - {id}
    {
      var id := m.config.digest.encoded;
      if id !in images {
        images := images[id := Image(src.config, top, src.manifest, {src.name})];
        return NoError;
      }
      if images[id].topLayer != top {
        return WrongTop;
      }
      images := images[id := Image(src.config, top, src.manifest, images[id].names + {src.name})];
      err := NoError;
    }

    /** An image record under this ID has another top layer. */
    predicate Occupied(id: string, top: string)
      reads this
    {
      id in images && images[id].topLayer != top
    }

    /** Documents that match their digests and decode. */
    function ReadImage(src: Source): Option<(Manifest, Config)> {
      if w.hash(src.manifest) != src.digest || w.manifest(src.manifest).None? then None
      else
        var m := w.manifest(src.manifest).value;
        if w.hash(src.config) != m.config.digest || w.config(src.config).None? then None
        else Some((m, w.config(src.config).value))
    }

    /** The documents are what the digests above them say. */
    ghost predicate Reads(src: Source, m: Manifest, cfg: Config) {
      && w.hash(src.manifest) == src.digest && w.manifest(src.manifest) == Some(m)
      && w.hash(src.config) == m.config.digest && w.config(src.config) == Some(cfg)
    }

    /** The record under this ID is the entry's, over this top layer, with the names it had before and the entry's. */
    predicate IsRecord(src: Source, id: string, top: string, before: set<string>)
      reads this
    {
      && id in images && images[id].config == src.config && images[id].manifest == src.manifest
      && images[id].topLayer == top && before + {src.name} <= images[id].names
    }

    /** Pulls one planned entry whose documents have been read. */
    method PullRead(src: Source, m: Manifest, cfg: Config, missing: seq<Descriptor>, out: Outside) returns (err: Error)
      requires Valid() && TextCollisionFree(h) && ReadImage(src) == Some((m, cfg))
      requires |m.layers| == |cfg.diffIDs| && Plain(h, cfg.diffIDs)
      modifies this
      ensures Valid() && GrowsTo(old(layers), layers) && ImagesGrow(old(images), images)
      ensures err == NoError ==>
        && IsRecord(src, m.config.digest.encoded, TopId(h, cfg.diffIDs), old(NamesOf(m.config.digest.encoded)))
        && Carries(layers, TopId(h, cfg.diffIDs), cfg.diffIDs)
      ensures (forall d :: out.fetched(d)) && old(Planned(missing, m, cfg.diffIDs)) && Reports(out, m, cfg.diffIDs) ==>
        err == NoError || err == WrongTop
      ensures err == WrongTop ==> Occupied(m.config.digest.encoded, TopId(h, cfg.diffIDs))
      ensures err != BadImage
    {
      err := FetchAll(missing, out);
      if err != NoError {
        return;
      }
      Interfere();
      var parent;
      err, parent := ApplyAll(m, cfg.diffIDs, out);
      if err != NoError {
        return;
      }
      ghost var before := layers;
      Interfere();
      GrowthKeepsCarries(before, layers, parent, cfg.diffIDs);
      err := WriteImage(src, m, parent);
    }

    /**
     * Pulls one planned entry. On success the image record's top layer carries exactly the config's
     * diffIDs in order, even when other pulls add layers between planning, checking and applying.
     */
    method PullEntry(src: Source, missing: seq<Descriptor>, out: Outside) returns (err: Error)
      requires Valid() && TextCollisionFree(h)
      requires ReadImage(src).Some? ==>
        var (m, cfg) := ReadImage(src).value; |m.layers| == |cfg.diffIDs| && Plain(h, cfg.diffIDs)
      modifies this
      ensures Valid() && GrowsTo(old(layers), layers) && ImagesGrow(old(images), images)
      ensures err == BadImage <==> !exists m, cfg :: Reads(src, m, cfg)
      ensures err == BadImage ==> layers == old(layers) && images == old(images)
      ensures err == NoError ==>
        var (m, cfg) := ReadImage(src).value;
        var id := m.config.digest.encoded;
        && IsRecord(src, id, TopId(h, cfg.diffIDs), old(NamesOf(id)))
        && Carries(layers, images[id].topLayer, cfg.diffIDs)
      // With its downloads and PutLayer in order, a planned pull fails only over an image record that
      // holds the same config under another top layer.
      ensures ReadImage(src).Some? ==>
        var (m, cfg) := ReadImage(src).value;
        (forall d :: out.fetched(d)) && old(Planned(missing, m, cfg.diffIDs)) && Reports(out, m, cfg.diffIDs) ==>
          err == NoError || err == WrongTop
      // That failure names its cause: the record is there, under another top layer.
      ensures err == WrongTop ==>
        ReadImage(src).Some? &&
        Occupied(ReadImage(src).value.0.config.digest.encoded, TopId(h, ReadImage(src).value.1.diffIDs))
    {
      if ReadImage(src).None? {
        return BadImage;
      }
      assert Reads(src, ReadImage(src).value.0, ReadImage(src).value.1);
      err := PullRead(src, ReadImage(src).value.0, ReadImage(src).value.1, missing, out);
    }

    /** Following parents from `top` ends within `n` layers: containers-storage keeps links acyclic. */
    ghost predicate Ends(top: string, n: nat)
      reads this
      decreases n
    {
      top == "" || top !in layers || (n > 0 && Ends(layers[top].parent, n - 1))
    }

    /**
     * The layers from the bottom up to top; None when one is missing. Their diffIDs are exactly what
     * the top layer carries.
     */
    method LayerChain(top: string, ghost n: nat) returns (chain: Option<seq<string>>)
      requires Ends(top, n)
      ensures chain.Some? ==> LinksUp(layers, chain.value, top)
      ensures forall ds | Carries(layers, top, ds) ::
        && chain.Some? && |chain.value| == |ds|
        && (forall i | 0 <= i < |ds| :: chain.value[i] in layers && layers[chain.value[i]].diffID == ds[i])
    {
      var up: seq<string> := [];
      var id := top;
      ghost var left := n;
      while id != ""
        invariant Ends(id, left) && LinksDown(layers, up, top, id)
        decreases left
      {
        if id !in layers {
          forall ds | Carries(layers, top, ds) ensures false {
            DownCarries(layers, up, top, id, ds);
          }
          return None;
        }
        up := up + [id];
        id := layers[id].parent;
        left := left - 1;
      }
      chain := Some(seq(|up|, i requires 0 <= i < |up| => up[|up| - 1 - i]));
      forall ds | Carries(layers, top, ds)
        ensures |ds| == |up| && forall i | 0 <= i < |up| :: layers[up[i]].diffID == ds[|ds| - 1 - i]
      {
        DownCarries(layers, up, top, id, ds);
      }
    }
  }

  /** `up` lists the layers met going down from `top`; the next one is `id`. */
  ghost predicate LinksDown(layers: Layers, up: seq<string>, top: string, id: string) {
    && (forall i | 0 <= i < |up| :: up[i] in layers && up[i] != "")
    && (forall i | 0 <= i < |up| - 1 :: layers[up[i]].parent == up[i + 1])
    && (if up == [] then id == top else up[0] == top && layers[up[|up| - 1]].parent == id)
  }

  lemma {:induction false} DownCarries(layers: Layers, up: seq<string>, top: string, id: string, ds: seq<Digest>)
    requires LinksDown(layers, up, top, id) && Carries(layers, top, ds)
    ensures |up| <= |ds| && Carries(layers, id, ds[..|ds| - |up|])
    ensures forall i | 0 <= i < |up| :: layers[up[i]].diffID == ds[|ds| - 1 - i]
    decreases |up|
  {
    if up == [] {
      assert ds[..|ds|] == ds;
    } else {
      var last := up[|up| - 1];
      DownCarries(layers, up[..|up| - 1], top, last, ds);
      var rest := ds[..|ds| - |up| + 1];
      assert Carries(layers, last, rest);
      assert rest[..|rest| - 1] == ds[..|ds| - |up|];
    }
  }

  /** `chain` is a path of parent links from a bottom layer up to `top`. */
  ghost predicate LinksUp(layers: Layers, chain: seq<string>, top: string) {
    && (chain == [] <==> top == "")
    && (forall i | 0 <= i < |chain| :: chain[i] in layers)
    && (chain != [] ==> chain[|chain| - 1] == top && layers[chain[0]].parent == "")
    && (forall i | 0 < i < |chain| :: layers[chain[i]].parent == chain[i - 1])
  }

  lemma ChainIdNotEmpty(h: TextHash, ds: seq<Digest>)
    requires TextCollisionFree(h) && ds != [] && Plain(h, ds)
    ensures ChainId(h, ds) != ""
  {
  }
}
