/** Plans: the images of a push, the blobs the target lacks, and the uploads that follow from them. */
module Planning {
  import opened Content
  import opened ImageModel
  import opened StoreProtocol
  import StoreModel = Store

  /** One single-platform image; `dir` is what its source can open. */
  datatype Image = Image(ref: Reference, platform: Platform, manifest: Descriptor, dir: map<Digest, Bytes>)

  datatype Entry = Entry(image: Image, missing: seq<Descriptor>, present: seq<Descriptor>)

  type Request = (Reference, Platform)

  function KeyOf(e: Entry): Request {
    (e.image.ref, e.image.platform)
  }

  function KeysOf(plan: seq<Entry>): (keys: seq<Request>)
    ensures |keys| == |plan| && forall i | 0 <= i < |plan| :: keys[i] == KeyOf(plan[i])
  {
    seq(|plan|, i requires 0 <= i < |plan| => KeyOf(plan[i]))
  }

  function JobOf(img: Image): Job {
    Job(img.ref, img.platform, img.manifest)
  }

  /** The image's layers, config and manifest, dependencies first. */
  function ImageBlobs(w: World, img: Image): Option<seq<Descriptor>> {
    if img.manifest.digest !in img.dir || w.hash(img.dir[img.manifest.digest]) != img.manifest.digest then None
    else
      match w.manifest(img.dir[img.manifest.digest])
      case None => None
      case Some(m) => Some(m.layers + [m.config, img.manifest])
  }

  /** The source holds the image's manifest. */
  ghost predicate HasManifest(w: World, img: Image) {
    && img.manifest.digest in img.dir && w.hash(img.dir[img.manifest.digest]) == img.manifest.digest
    && w.manifest(img.dir[img.manifest.digest]).Some?
  }

  /** The config of the manifest, or one of its layers. */
  ghost predicate PartOf(m: Manifest, d: Descriptor) {
    d == m.config || d in m.layers
  }

  ghost predicate IsBlob(w: World, img: Image, d: Descriptor)
    requires HasManifest(w, img)
  {
    d == img.manifest || PartOf(w.manifest(img.dir[img.manifest.digest]).value, d)
  }

  /** The list is there exactly with the manifest, and holds the image's blobs and no others. */
  lemma ImageBlobsAre(w: World, img: Image)
    ensures ImageBlobs(w, img).Some? <==> HasManifest(w, img)
    ensures HasManifest(w, img) ==> forall d :: d in ImageBlobs(w, img).value <==> IsBlob(w, img, d)
  {
    if HasManifest(w, img) {
      var m := w.manifest(img.dir[img.manifest.digest]).value;
      var descs := ImageBlobs(w, img).value;
      assert descs[|m.layers|] == m.config && descs[|m.layers| + 1] == img.manifest;
      assert descs[..|m.layers|] == m.layers;
    }
  }

  /** An image whose source holds a manifest and config that a store accepts for its platform. */
  ghost predicate Sendable(w: World, img: Image, m: Manifest, cfg: Config) {
    && IsManifest(img.manifest.mediaType)
    && HasManifest(w, img) && w.manifest(img.dir[img.manifest.digest]) == Some(m)
    && m.config.digest in img.dir && w.hash(img.dir[m.config.digest]) == m.config.digest
    && w.config(img.dir[m.config.digest]) == Some(cfg)
    && img.platform.os == cfg.platform.os && img.platform.arch == cfg.platform.arch
    && (img.platform.variant == cfg.platform.variant || img.platform.variant == "" || cfg.platform.variant == "")
    && |cfg.diffIDs| == |m.layers|
    && NoForeign(m) && forall i | 0 <= i < |m.layers| :: ValidDigest(m.layers[i].digest)
  }

  ghost predicate AllStored(es: Entries, descs: seq<Descriptor>) {
    forall i | 0 <= i < |descs| :: BlobEntry(descs[i].digest) in es
  }

  /** The blobs of the image are missing or present, and the present ones are stored. */
  ghost predicate Covered(w: World, es: Entries, e: Entry) {
    && (HasManifest(w, e.image) ==> forall d | IsBlob(w, e.image, d) :: d in e.missing || d in e.present)
    && AllStored(es, e.present)
  }

  /** A planned entry whose image is in order. */
  ghost predicate Ready(w: World, es: Entries, e: Entry) {
    (exists m, cfg :: Sendable(w, e.image, m, cfg)) && Covered(w, es, e)
  }

  /** Once all its blobs are stored, a sendable image passes every check of Commit. */
  lemma StoredIsCommittable(w: World, es: Entries, img: Image, m: Manifest, cfg: Config)
    requires CollisionFree(w.hash) && BlobsOK(w, es)
    requires Sendable(w, img, m, cfg) && AllStored(es, ImageBlobs(w, img).value)
    ensures StoreModel.Committable(w, es, JobOf(img))
  {
    var descs := ImageBlobs(w, img).value;
    assert descs[|m.layers|] == m.config && descs[|m.layers| + 1] == img.manifest;
    assert es[BlobEntry(img.manifest.digest)] == img.dir[img.manifest.digest];
    assert es[BlobEntry(m.config.digest)] == img.dir[m.config.digest];
    forall i | 0 <= i < |m.layers| ensures BlobEntry(m.layers[i].digest) in es {
      assert descs[i] == m.layers[i];
    }
  }

  // ---------------------------------------------------------------------------------------------
  // Splitting a list in two, order kept

  ghost predicate IsSplit<T>(all: seq<T>, a: seq<T>, b: seq<T>)
    decreases |all|
  {
    if all == [] then a == [] && b == []
    else
      var k := |all| - 1;
      || (a != [] && a[|a| - 1] == all[k] && IsSplit(all[..k], a[..|a| - 1], b))
      || (b != [] && b[|b| - 1] == all[k] && IsSplit(all[..k], a, b[..|b| - 1]))
  }

  lemma SplitNext<T>(all: seq<T>, a: seq<T>, b: seq<T>, x: T)
    requires IsSplit(all, a, b)
    ensures IsSplit(all + [x], a + [x], b) && IsSplit(all + [x], a, b + [x])
  {
    assert (all + [x])[..|all|] == all && (a + [x])[..|a|] == a && (b + [x])[..|b|] == b;
  }

  /** The parts are the whole, each element as often. */
  lemma {:induction false} SplitConserves<T>(all: seq<T>, a: seq<T>, b: seq<T>)
    requires IsSplit(all, a, b)
    ensures multiset(all) == multiset(a) + multiset(b)
    decreases |all|
  {
    if all != [] {
      var k := |all| - 1;
      assert all == all[..k] + [all[k]];
      if a != [] && a[|a| - 1] == all[k] && IsSplit(all[..k], a[..|a| - 1], b) {
        SplitConserves(all[..k], a[..|a| - 1], b);
        assert a == a[..|a| - 1] + [all[k]];
      } else {
        SplitConserves(all[..k], a, b[..|b| - 1]);
        assert b == b[..|b| - 1] + [all[k]];
      }
    }
  }

  /** Of distinct elements, each is in exactly one part. */
  lemma SplitDistinct<T>(all: seq<T>, a: seq<T>, b: seq<T>)
    requires IsSplit(all, a, b) && NoDuplicates(all)
    ensures NoDuplicates(a) && NoDuplicates(b)
    ensures forall x :: (x in all <==> x in a || x in b) && !(x in a && x in b)
  {
    SplitConserves(all, a, b);
    forall x
      ensures (x in all <==> x in a || x in b) && !(x in a && x in b) && multiset(a)[x] <= 1 && multiset(b)[x] <= 1
    {
      OnceEach(all, x);
      assert multiset(all)[x] == multiset(a)[x] + multiset(b)[x];
    }
    AtMostOnce(a);
    AtMostOnce(b);
  }

  lemma {:induction false} OnceEach<T>(s: seq<T>, x: T)
    requires NoDuplicates(s)
    ensures multiset(s)[x] <= 1 && (x in s <==> multiset(s)[x] == 1)
    decreases |s|
  {
    if s != [] {
      var k := |s| - 1;
      assert s == s[..k] + [s[k]];
      OnceEach(s[..k], x);
    }
  }

  lemma AtMostOnce<T>(s: seq<T>)
    requires forall x :: multiset(s)[x] <= 1
    ensures NoDuplicates(s)
  {
    forall i, j | 0 <= i < j < |s| ensures s[i] != s[j] {
      assert s == s[..j] + [s[j]] + s[j + 1..];
      assert s[i] in s[..j];
      assert multiset(s)[s[j]] == multiset(s[..j])[s[j]] + 1 + multiset(s[j + 1..])[s[j]];
    }
  }

  // ---------------------------------------------------------------------------------------------
  // Dependencies first

  /** Each list holds its layers in the manifest's order, then the config, then the manifest, if they are its. */
  ghost predicate OrderedBy(
      m: Manifest, manifest: Descriptor, missing: seq<Descriptor>, present: seq<Descriptor>,
      layers: seq<Descriptor>, others: seq<Descriptor>, config: bool, last: bool)
  {
    && IsSplit(m.layers, layers, others)
    && missing == layers + (if config then [m.config] else []) + (if last then [manifest] else [])
    && present == others + (if config then [] else [m.config]) + (if last then [] else [manifest])
  }

  ghost predicate InOrder(m: Manifest, manifest: Descriptor, missing: seq<Descriptor>, present: seq<Descriptor>) {
    exists layers, others, config, last :: OrderedBy(m, manifest, missing, present, layers, others, config, last)
  }

  /** The image's manifest can be read, and layers come before config and config before manifest in both lists. */
  ghost predicate DependenciesFirst(w: World, e: Entry) {
    && HasManifest(w, e.image)
    && InOrder(w.manifest(e.image.dir[e.image.manifest.digest]).value, e.image.manifest, e.missing, e.present)
  }

  lemma SplitLast<T>(front: seq<T>, x: T, a: seq<T>, b: seq<T>) returns (a': seq<T>, b': seq<T>, left: bool)
    requires IsSplit(front + [x], a, b)
    ensures IsSplit(front, a', b')
    ensures a == a' + (if left then [x] else []) && b == b' + (if left then [] else [x])
  {
    assert (front + [x])[..|front|] == front;
    left := a != [] && a[|a| - 1] == x && IsSplit(front, a[..|a| - 1], b);
    a', b' := if left then a[..|a| - 1] else a, if left then b else b[..|b| - 1];
  }

  lemma SplitLastTwo<T>(front: seq<T>, x: T, y: T, a: seq<T>, b: seq<T>)
    returns (a': seq<T>, b': seq<T>, first: bool, second: bool)
    requires IsSplit(front + [x, y], a, b)
    ensures IsSplit(front, a', b')
    ensures a == a' + (if first then [x] else []) + (if second then [y] else [])
    ensures b == b' + (if first then [] else [x]) + (if second then [] else [y])
  {
    assert front + [x, y] == (front + [x]) + [y];
    var a1, b1;
    a1, b1, second := SplitLast(front + [x], y, a, b);
    a', b', first := SplitLast(front, x, a1, b1);
  }

  lemma SplitIsInOrder(w: World, e: Entry)
    requires ImageBlobs(w, e.image).Some? && IsSplit(ImageBlobs(w, e.image).value, e.missing, e.present)
    ensures DependenciesFirst(w, e)
  {
    var m := w.manifest(e.image.dir[e.image.manifest.digest]).value;
    var layers, others, config, last := SplitLastTwo(m.layers, m.config, e.image.manifest, e.missing, e.present);
    assert OrderedBy(m, e.image.manifest, e.missing, e.present, layers, others, config, last);
  }

  // ---------------------------------------------------------------------------------------------
  // Requests

  /** The platforms asked for, by default the host's. */
  function Wanted(platforms: seq<Platform>, host: Platform): seq<Platform> {
    if platforms == [] then [host] else platforms
  }

  function Pairs(ref: Reference, platforms: seq<Platform>): (r: seq<Request>)
    ensures |r| == |platforms| && forall i | 0 <= i < |r| :: r[i] == (ref, platforms[i])
  {
    seq(|platforms|, i requires 0 <= i < |platforms| => (ref, platforms[i]))
  }

  /** Every reference for every platform, in order. */
  function Requests(refs: seq<Reference>, platforms: seq<Platform>): seq<Request> {
    if refs == [] then [] else Requests(refs[..|refs| - 1], platforms) + Pairs(refs[|refs| - 1], platforms)
  }

  /** The place of row (i, j) in rows of n. */
  function At(n: nat, i: nat, j: nat): nat {
    i * n + j
  }

  lemma {:induction false} PlaceFits(n: nat, i: nat, j: nat, k: nat)
    requires i < k && j < n
    ensures At(n, i, j) < k * n
    decreases k
  {
    assert k * n == (k - 1) * n + n;
    if i < k - 1 {
      PlaceFits(n, i, j, k - 1);
    }
  }

  ghost predicate IsRow(requests: seq<Request>, refs: seq<Reference>, platforms: seq<Platform>, i: nat, j: nat) {
    && i < |refs| && j < |platforms|
    && At(|platforms|, i, j) < |requests| && requests[At(|platforms|, i, j)] == (refs[i], platforms[j])
  }

  /** Row by row: the platforms of the first reference, then those of the second, and so on. */
  lemma {:induction false} RequestsAt(refs: seq<Reference>, platforms: seq<Platform>)
    ensures |Requests(refs, platforms)| == |refs| * |platforms|
    ensures forall i: nat, j: nat | i < |refs| && j < |platforms| ::
      IsRow(Requests(refs, platforms), refs, platforms, i, j)
    decreases |refs|
  {
    if refs != [] {
      var k, n := |refs| - 1, |platforms|;
      RequestsAt(refs[..k], platforms);
      assert |refs| * n == k * n + n;
      forall i: nat, j: nat | i < |refs| && j < n ensures IsRow(Requests(refs, platforms), refs, platforms, i, j) {
        if i < k {
          PlaceFits(n, i, j, k);
          assert IsRow(Requests(refs[..k], platforms), refs[..k], platforms, i, j);
        } else {
          assert At(n, i, j) == k * n + j;
        }
      }
    }
  }

  lemma {:induction false} RequestsAreProduct(refs: seq<Reference>, platforms: seq<Platform>)
    ensures forall q: Request :: q in Requests(refs, platforms) <==> q.0 in refs && q.1 in platforms
    decreases |refs|
  {
    if refs != [] {
      var k := |refs| - 1;
      RequestsAreProduct(refs[..k], platforms);
      assert refs == refs[..k] + [refs[k]];
      forall q: Request | q.0 in refs && q.1 in platforms ensures q in Requests(refs, platforms) {
        if q.0 == refs[k] {
          var j :| 0 <= j < |platforms| && platforms[j] == q.1;
          assert Pairs(refs[k], platforms)[j] == q;
        }
      }
    }
  }

  lemma {:induction false} RequestsAreDistinct(refs: seq<Reference>, platforms: seq<Platform>)
    requires NoDuplicates(refs) && NoDuplicates(platforms)
    ensures NoDuplicates(Requests(refs, platforms))
    decreases |refs|
  {
    if refs != [] {
      var k := |refs| - 1;
      RequestsAreDistinct(refs[..k], platforms);
      RequestsAreProduct(refs[..k], platforms);
      var before, here := Requests(refs[..k], platforms), Pairs(refs[k], platforms);
      forall i, j | 0 <= i < j < |before + here| ensures (before + here)[i] != (before + here)[j] {
        if i < |before| <= j {
          assert before[i] in before && before[i].0 in refs[..k];
        }
      }
    }
  }

  // ---------------------------------------------------------------------------------------------
  // Uploads

  datatype Upload = Upload(entry: nat, desc: Descriptor)

  function Tagged(entry: nat, descs: seq<Descriptor>): (r: seq<Upload>)
    ensures |r| == |descs| && forall i | 0 <= i < |r| :: r[i] == Upload(entry, descs[i])
  {
    seq(|descs|, i requires 0 <= i < |descs| => Upload(entry, descs[i]))
  }

  /** The missing blobs of all entries, in order, repetitions included. */
  function AllMissing(plan: seq<Entry>): seq<Upload> {
    if plan == [] then [] else AllMissing(plan[..|plan| - 1]) + Tagged(|plan| - 1, plan[|plan| - 1].missing)
  }

  ghost predicate Mentions(us: seq<Upload>, d: Digest) {
    exists i :: 0 <= i < |us| && us[i].desc.digest == d
  }

  /** The first mention of each digest. */
  ghost function Firsts(all: seq<Upload>): seq<Upload> {
    if all == [] then []
    else
      var k := |all| - 1;
      Firsts(all[..k]) + (if Mentions(all[..k], all[k].desc.digest) then [] else [all[k]])
  }

  /** No digest twice, every mentioned digest, and each by its first mention. */
  ghost predicate OnePerDigest(all: seq<Upload>, us: seq<Upload>) {
    && DistinctDigests(us)
    && (forall i | 0 <= i < |us| :: HasFirst(all, us[i]))
    && (forall k | 0 <= k < |all| :: Mentions(us, all[k].desc.digest))
  }

  ghost predicate DistinctDigests(us: seq<Upload>) {
    forall i, j | 0 <= i < j < |us| :: us[i].desc.digest != us[j].desc.digest
  }

  ghost predicate HasFirst(all: seq<Upload>, u: Upload) {
    exists k :: IsFirst(all, k, u)
  }

  ghost predicate IsFirst(all: seq<Upload>, k: int, u: Upload) {
    0 <= k < |all| && all[k] == u && forall j | 0 <= j < k :: all[j].desc.digest != u.desc.digest
  }

  lemma {:induction false} FirstsAreOnePerDigest(all: seq<Upload>)
    ensures OnePerDigest(all, Firsts(all))
    decreases |all|
  {
    if all != [] {
      var n := |all| - 1;
      assert all == all[..n] + [all[n]];
      FirstsAreOnePerDigest(all[..n]);
      OnePerDigestNext(all[..n], Firsts(all[..n]), all[n], Firsts(all));
    }
  }

  lemma OnePerDigestNext(front: seq<Upload>, us: seq<Upload>, u: Upload, us': seq<Upload>)
    requires OnePerDigest(front, us) && us' == us + (if Mentions(front, u.desc.digest) then [] else [u])
    ensures OnePerDigest(front + [u], us')
  {
    var all := front + [u];
    forall i | 0 <= i < |us'| ensures HasFirst(all, us'[i]) {
      if i < |us| {
        assert HasFirst(front, us[i]);
        var k :| IsFirst(front, k, us[i]);
        assert IsFirst(all, k, us'[i]);
      } else {
        assert us'[i] == u && IsFirst(all, |front|, u);
      }
    }
    assert DistinctDigests(us') by {
      forall i, j | 0 <= i < j < |us'| ensures us'[i].desc.digest != us'[j].desc.digest {
        assert HasFirst(front, us[i]);
        var k :| IsFirst(front, k, us[i]);
        assert front[k] == us[i];
      }
    }
    forall k | 0 <= k < |all| ensures Mentions(us', all[k].desc.digest) {
      MentionedStill(front, us, u, us', k);
    }
  }

  lemma MentionedStill(front: seq<Upload>, us: seq<Upload>, u: Upload, us': seq<Upload>, k: nat)
    requires OnePerDigest(front, us) && us' == us + (if Mentions(front, u.desc.digest) then [] else [u]) && k <= |front|
    ensures Mentions(us', (front + [u])[k].desc.digest)
  {
    var d := (front + [u])[k].desc.digest;
    if Mentions(front, d) {
      var j :| 0 <= j < |front| && front[j].desc.digest == d;
      assert Mentions(us, front[j].desc.digest);
      var i :| 0 <= i < |us| && us[i].desc.digest == d;
      assert us'[i] == us[i];
    } else {
      assert us'[|us|] == u;
    }
  }

  lemma {:induction false} MissingOf(plan: seq<Entry>)
    ensures forall k | 0 <= k < |AllMissing(plan)| ::
      AllMissing(plan)[k].entry < |plan| && AllMissing(plan)[k].desc in plan[AllMissing(plan)[k].entry].missing
    ensures forall i, d | 0 <= i < |plan| && d in plan[i].missing :: Upload(i, d) in AllMissing(plan)
    decreases |plan|
  {
    if plan != [] {
      var n := |plan| - 1;
      MissingOf(plan[..n]);
      forall i, d | 0 <= i < |plan| && d in plan[i].missing ensures Upload(i, d) in AllMissing(plan) {
        if i == n {
          var j :| 0 <= j < |plan[n].missing| && plan[n].missing[j] == d;
          assert Tagged(n, plan[n].missing)[j] == Upload(i, d);
        } else {
          assert plan[..n][i] == plan[i];
        }
      }
    }
  }

  function Sum(descs: seq<Descriptor>): int {
    if descs == [] then 0 else Sum(descs[..|descs| - 1]) + descs[|descs| - 1].size
  }

  lemma SumNext(descs: seq<Descriptor>, d: Descriptor)
    ensures Sum(descs + [d]) == Sum(descs) + d.size
  {
    assert (descs + [d])[..|descs|] == descs;
  }

  /** Nothing adds nothing, one descriptor its size, and lists add up. */
  lemma {:induction false} SumAdds(a: seq<Descriptor>, b: seq<Descriptor>, d: Descriptor)
    ensures Sum([]) == 0 && Sum([d]) == d.size && Sum(a + b) == Sum(a) + Sum(b)
    decreases |b|
  {
    SumNext([], d);
    assert [] + [d] == [d];
    if b == [] {
      assert a + b == a;
    } else {
      var k := |b| - 1;
      SumAdds(a, b[..k], d);
      SumNext(a + b[..k], b[k]);
      assert a + b == a + b[..k] + [b[k]];
    }
  }

  lemma {:induction false} SplitSums(all: seq<Descriptor>, a: seq<Descriptor>, b: seq<Descriptor>)
    requires IsSplit(all, a, b)
    ensures Sum(all) == Sum(a) + Sum(b)
    decreases |all|
  {
    if all != [] {
      var k := |all| - 1;
      if a != [] && a[|a| - 1] == all[k] && IsSplit(all[..k], a[..|a| - 1], b) {
        SplitSums(all[..k], a[..|a| - 1], b);
      } else {
        SplitSums(all[..k], a, b[..|b| - 1]);
      }
    }
  }

  /** The bytes of an image: of its layers, its config and its manifest. */
  ghost function ImageSize(w: World, img: Image): int
    requires HasManifest(w, img)
  {
    var m := w.manifest(img.dir[img.manifest.digest]).value;
    Sum(m.layers) + m.config.size + img.manifest.size
  }

  lemma ImageBlobsSum(w: World, img: Image)
    requires HasManifest(w, img)
    ensures Sum(ImageBlobs(w, img).value) == ImageSize(w, img)
  {
    var m := w.manifest(img.dir[img.manifest.digest]).value;
    SumNext(m.layers, m.config);
    SumNext(m.layers + [m.config], img.manifest);
    assert m.layers + [m.config, img.manifest] == m.layers + [m.config] + [img.manifest];
  }

  function DescsOf(us: seq<Upload>): (descs: seq<Descriptor>)
    ensures |descs| == |us| && forall i | 0 <= i < |us| :: descs[i] == us[i].desc
  {
    seq(|us|, i requires 0 <= i < |us| => us[i].desc)
  }

  /** The bytes of some uploads. */
  ghost function SizesOf(us: seq<Upload>): int {
    Sum(DescsOf(us))
  }

  ghost predicate SeenOK(seen: set<Digest>, done: seq<Upload>) {
    forall d :: d in seen <==> Mentions(done, d)
  }

  /** One more mention: it counts unless its digest was seen. */
  lemma FirstsNext(done: seq<Upload>, u: Upload, seen: set<Digest>)
    requires SeenOK(seen, done)
    ensures Firsts(done + [u]) == Firsts(done) + (if u.desc.digest in seen then [] else [u])
    ensures SeenOK(seen + {u.desc.digest}, done + [u])
  {
    assert (done + [u])[..|done|] == done;
    forall d ensures Mentions(done + [u], d) <==> Mentions(done, d) || d == u.desc.digest {
      if Mentions(done, d) {
        var i :| 0 <= i < |done| && done[i].desc.digest == d;
        assert (done + [u])[i] == done[i];
      } else if d == u.desc.digest {
        assert (done + [u])[|done|] == u;
      }
    }
  }

  lemma SizesAppend(us: seq<Upload>, u: Upload)
    ensures SizesOf(us + [u]) == SizesOf(us) + u.desc.size
  {
    assert DescsOf(us + [u]) == DescsOf(us) + [u.desc];
    SumNext(DescsOf(us), u.desc);
  }

  lemma SizesNext(done: seq<Upload>, u: Upload, seen: set<Digest>)
    requires SeenOK(seen, done)
    ensures SizesOf(Firsts(done + [u])) == SizesOf(Firsts(done)) + (if u.desc.digest in seen then 0 else u.desc.size)
  {
    FirstsNext(done, u, seen);
    if u.desc.digest !in seen {
      SizesAppend(Firsts(done), u);
    } else {
      NothingAppended(Firsts(done));
    }
  }

  lemma NothingAppended<T>(s: seq<T>)
    ensures s + [] == s
  {
  }

  lemma TaggedNext(front: seq<Upload>, entry: nat, descs: seq<Descriptor>, j: nat)
    requires j < |descs|
    ensures front + Tagged(entry, descs)[..j + 1] == front + Tagged(entry, descs)[..j] + [Upload(entry, descs[j])]
  {
  }

  /** Plan.Bytes: the size of the missing blobs, each digest counted once. */
  method Bytes(plan: seq<Entry>) returns (n: int)
    ensures n == SizesOf(Firsts(AllMissing(plan)))
  {
    n := 0;
    var seen: set<Digest> := {};
    ghost var done: seq<Upload> := [];
    for i := 0 to |plan|
      invariant done == AllMissing(plan[..i]) && n == SizesOf(Firsts(done)) && SeenOK(seen, done)
    {
      assert plan[..i + 1][..i] == plan[..i];
      ghost var front := done;
      var missing := plan[i].missing;
      for j := 0 to |missing|
        invariant done == front + Tagged(i, missing)[..j] && n == SizesOf(Firsts(done)) && SeenOK(seen, done)
      {
        ghost var u := Upload(i, missing[j]);
        TaggedNext(front, i, missing, j);
        FirstsNext(done, u, seen);
        SizesNext(done, u, seen);
        if missing[j].digest !in seen {
          n := n + missing[j].size;
        }
        seen, done := seen + {missing[j].digest}, done + [u];
      }
    }
    assert plan[..|plan|] == plan;
  }

  /** The uploads of one entry: its digests not seen before. */
  method CollectEntry(
      i: nat, missing: seq<Descriptor>, before: seq<Upload>, seen0: set<Digest>, ghost front: seq<Upload>)
    returns (uploads: seq<Upload>, seen: set<Digest>)
    requires before == Firsts(front) && SeenOK(seen0, front)
    ensures uploads == Firsts(front + Tagged(i, missing)) && SeenOK(seen, front + Tagged(i, missing))
  {
    uploads, seen := before, seen0;
    assert front + Tagged(i, missing)[..0] == front;
    for j := 0 to |missing|
      invariant uploads == Firsts(front + Tagged(i, missing)[..j]) && SeenOK(seen, front + Tagged(i, missing)[..j])
    {
      var u := Upload(i, missing[j]);
      TaggedNext(front, i, missing, j);
      FirstsNext(front + Tagged(i, missing)[..j], u, seen);
      uploads := uploads + (if missing[j].digest in seen then [] else [u]);
      seen := seen + {missing[j].digest};
    }
    assert Tagged(i, missing)[..|missing|] == Tagged(i, missing);
  }

  /** Push's first loop: one upload per missing digest, for the first entry that needs it. */
  method CollectUploads(plan: seq<Entry>) returns (uploads: seq<Upload>)
    ensures uploads == Firsts(AllMissing(plan))
  {
    uploads := [];
    var seen: set<Digest> := {};
    for i := 0 to |plan|
      invariant uploads == Firsts(AllMissing(plan[..i])) && SeenOK(seen, AllMissing(plan[..i]))
    {
      assert plan[..i + 1][..i] == plan[..i];
      uploads, seen := CollectEntry(i, plan[i].missing, uploads, seen, AllMissing(plan[..i]));
    }
    assert plan[..|plan|] == plan;
  }

  /** The uploads before one are the first mentions before its own. */
  lemma {:induction false} FirstsBefore(all: seq<Upload>, i: nat) returns (k: nat)
    requires i < |Firsts(all)|
    ensures k < |all| && all[k] == Firsts(all)[i] && Firsts(all[..k]) == Firsts(all)[..i]
    decreases |all|
  {
    var n := |all| - 1;
    if i < |Firsts(all[..n])| {
      k := FirstsBefore(all[..n], i);
      assert all[..n][..k] == all[..k];
    } else {
      k := n;
    }
  }

  /** Where the missing blobs of entry e begin. */
  function BlockOf(plan: seq<Entry>, e: nat): nat
    requires e <= |plan|
  {
    |AllMissing(plan[..e])|
  }

  /** They stand together, in order. */
  lemma {:induction false} MissingBlock(plan: seq<Entry>, e: nat, q: nat)
    requires e < |plan| && q < |plan[e].missing|
    ensures BlockOf(plan, e) + q < |AllMissing(plan)|
    ensures AllMissing(plan)[BlockOf(plan, e) + q] == Upload(e, plan[e].missing[q])
    decreases |plan|
  {
    var n := |plan| - 1;
    if e < n {
      MissingBlock(plan[..n], e, q);
      assert plan[..n][..e] == plan[..e];
    } else {
      assert AllMissing(plan)[BlockOf(plan, e) + q] == Tagged(n, plan[n].missing)[q];
    }
  }

  lemma {:induction false} InBlock(plan: seq<Entry>, k: nat)
    requires k < |AllMissing(plan)|
    ensures var e := AllMissing(plan)[k].entry;
      && e < |plan| && BlockOf(plan, e) <= k < BlockOf(plan, e) + |plan[e].missing|
      && AllMissing(plan)[k].desc == plan[e].missing[k - BlockOf(plan, e)]
    decreases |plan|
  {
    var n := |plan| - 1;
    if k < |AllMissing(plan[..n])| {
      InBlock(plan[..n], k);
      assert plan[..n][..AllMissing(plan)[k].entry] == plan[..AllMissing(plan)[k].entry];
    }
  }

  /** In this list `d` stands only before `x`. */
  ghost predicate OnlyBefore(descs: seq<Descriptor>, d: Descriptor, x: Descriptor) {
    forall q: nat, r: nat | q < |descs| && r < |descs| && descs[q] == d && descs[r] == x :: q < r
  }

  lemma MentionedBefore(plan: seq<Entry>, k: nat, d: Descriptor) returns (x: nat)
    requires k < |AllMissing(plan)| && AllMissing(plan)[k].entry < |plan|
    requires var u := AllMissing(plan)[k];
      d in plan[u.entry].missing && OnlyBefore(plan[u.entry].missing, d, u.desc)
    ensures x < k && AllMissing(plan)[x].desc == d
  {
    var e := AllMissing(plan)[k].entry;
    InBlock(plan, k);
    var q: nat :| q < |plan[e].missing| && plan[e].missing[q] == d;
    MissingBlock(plan, e, q);
    x := BlockOf(plan, e) + q;
  }

  /** A blob listed before an upload's own mention is uploaded before it. */
  lemma EarlierIsUploaded(plan: seq<Entry>, us: seq<Upload>, i: nat, d: Descriptor) returns (j: nat)
    requires us == Firsts(AllMissing(plan)) && i < |us| && us[i].entry < |plan|
    requires d in plan[us[i].entry].missing && OnlyBefore(plan[us[i].entry].missing, d, us[i].desc)
    ensures j < i && us[j].desc.digest == d.digest
  {
    var all := AllMissing(plan);
    var k := FirstsBefore(all, i);
    var x := MentionedBefore(plan, k, d);
    FirstsAreOnePerDigest(all[..k]);
    assert all[..k][x].desc == d && Mentions(us[..i], d.digest);
    j :| 0 <= j < |us[..i]| && us[..i][j].desc.digest == d.digest;
  }

  /**
   * The uploads of a plan are exactly its distinct missing digests, once each, each for an entry that
   * lists it and no later than any entry that does.
   */
  lemma {:induction false} UploadsAreTheMissing(plan: seq<Entry>, us: seq<Upload>)
    requires us == Firsts(AllMissing(plan))
    ensures DistinctDigests(us)
    ensures forall i | 0 <= i < |us| :: us[i].entry < |plan| && us[i].desc in plan[us[i].entry].missing
    ensures forall e, d | 0 <= e < |plan| && d in plan[e].missing ::
      exists i :: 0 <= i < |us| && us[i].desc.digest == d.digest && us[i].entry <= e
  {
    var all := AllMissing(plan);
    FirstsAreOnePerDigest(all);
    MissingOf(plan);
    forall i | 0 <= i < |us| ensures us[i].entry < |plan| && us[i].desc in plan[us[i].entry].missing {
      assert HasFirst(all, us[i]);
      var k :| IsFirst(all, k, us[i]);
    }
    forall e, d | 0 <= e < |plan| && d in plan[e].missing
      ensures exists i :: 0 <= i < |us| && us[i].desc.digest == d.digest && us[i].entry <= e
    {
      var i := UploadOf(plan, us, e, d);
    }
  }

  lemma UploadOf(plan: seq<Entry>, us: seq<Upload>, e: nat, d: Descriptor) returns (i: nat)
    requires us == Firsts(AllMissing(plan)) && e < |plan| && d in plan[e].missing
    ensures i < |us| && us[i].desc.digest == d.digest && us[i].entry <= e
  {
    var all := AllMissing(plan);
    FirstsAreOnePerDigest(all);
    MissingOf(plan);
    assert Upload(e, d) in all;
    var j :| 0 <= j < |all| && all[j] == Upload(e, d);
    assert Mentions(us, all[j].desc.digest);
    i :| 0 <= i < |us| && us[i].desc.digest == d.digest;
    assert HasFirst(all, us[i]);
    var k :| IsFirst(all, k, us[i]);
    MissingInOrder(plan, k, j);
  }

  lemma {:induction false} MissingInOrder(plan: seq<Entry>, k: nat, j: nat)
    requires k <= j < |AllMissing(plan)|
    ensures AllMissing(plan)[k].entry <= AllMissing(plan)[j].entry
    decreases |plan|
  {
    var n := |plan| - 1;
    if j < |AllMissing(plan[..n])| {
      MissingInOrder(plan[..n], k, j);
    } else if k < |AllMissing(plan[..n])| {
      MissingOf(plan[..n]);
    }
  }
}
