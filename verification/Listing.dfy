/** Reading a listing of the store: Walk over the leaves, DiffIDBlobs over the markers. */
module Listing {
  import opened Content
  import opened ImageModel
  import opened Paths
  import opened LeafPath
  import opened StoreProtocol
  import opened StoreSafety
  import opened EntryPaths
  import StoreModel = Store

  type Files = map<string, Bytes>

  /** What a backend's List yields, name by name; None is an error it yields instead. */
  datatype Lister = NotListable | Lists(items: seq<Option<string>>)

  datatype Trouble = NoLister | ListFailed | BadLeaf | BadDiffID

  // ---------------------------------------------------------------------------------------------
  // Loops over a listing

  /** What a loop that skips some items and turns the others into results gathers. */
  function Gather<S, T>(f: S -> Option<T>, xs: seq<S>): seq<T> {
    if xs == [] then []
    else
      var k := |xs| - 1;
      Gather(f, xs[..k]) + (match f(xs[k]) case None => [] case Some(y) => [y])
  }

  lemma {:induction false} GatherSource<S, T>(f: S -> Option<T>, xs: seq<S>, y: T) returns (x: S)
    requires y in Gather(f, xs)
    ensures x in xs && f(x) == Some(y)
    decreases |xs|
  {
    var k := |xs| - 1;
    if f(xs[k]) == Some(y) {
      x := xs[k];
    } else {
      x := GatherSource(f, xs[..k], y);
    }
  }

  lemma {:induction false} GatherKeeps<S, T>(f: S -> Option<T>, xs: seq<S>, x: S)
    requires x in xs && f(x).Some?
    ensures f(x).value in Gather(f, xs)
    decreases |xs|
  {
    var k := |xs| - 1;
    if x != xs[k] {
      GatherKeeps(f, xs[..k], x);
    }
  }

  /** Two results come from two items of the list, in the same order. */
  lemma {:induction false} GatherPair<S, T>(f: S -> Option<T>, xs: seq<S>, i: nat, j: nat) returns (a: nat, b: nat)
    requires i < j < |Gather(f, xs)|
    ensures a < b < |xs| && f(xs[a]) == Some(Gather(f, xs)[i]) && f(xs[b]) == Some(Gather(f, xs)[j])
    decreases |xs|
  {
    var k := |xs| - 1;
    var front := Gather(f, xs[..k]);
    if j < |front| {
      a, b := GatherPair(f, xs[..k], i, j);
    } else {
      a := GatherIndex(f, xs[..k], i);
      b := k;
    }
  }

  lemma {:induction false} GatherIndex<S, T>(f: S -> Option<T>, xs: seq<S>, i: nat) returns (a: nat)
    requires i < |Gather(f, xs)|
    ensures a < |xs| && f(xs[a]) == Some(Gather(f, xs)[i])
    decreases |xs|
  {
    var k := |xs| - 1;
    if i < |Gather(f, xs[..k])| {
      a := GatherIndex(f, xs[..k], i);
    } else {
      a := k;
    }
  }

  // ---------------------------------------------------------------------------------------------
  // A backend that holds a store

  /** Every entry has its file, and a file holds what one of the entries of that path was created with. */
  ghost predicate Renders(files: Files, es: Entries) {
    && (forall n | n in es :: EntryPath(n) in files)
    && (forall f | f in files :: exists n :: n in es && EntryPath(n) == f && files[f] == es[n])
  }

  /** The references and platforms of the committed leaves are well formed. */
  ghost predicate LeavesWellFormed(es: Entries) {
    forall leaf | LayoutEntry(leaf) in es || IndexEntry(leaf) in es :: WellFormedLeaf(leaf)
  }

  /** Names under the prefix, none twice; all of them, unless an error was yielded. */
  ghost predicate ListsOf(files: Files, prefix: string, items: seq<Option<string>>) {
    && (forall i, j | 0 <= i < j < |items| && items[i].Some? :: items[i] != items[j])
    && (forall f | Some(f) in items :: f in files && prefix <= f)
    && (None !in items ==> forall f | f in files && prefix <= f :: Some(f) in items)
  }

  /** Uploads and markers name blobs by valid digests: the backend refuses any other. */
  ghost predicate DigestsValid(w: World, s: State) {
    && (forall n | n in s.entries && n.BlobEntry? :: ValidDigest(n.digest))
    && (forall n | n in s.entries && n.MarkerEntry? :: ValidDigest(n.blob))
  }

  lemma CallKeepsDigestsValid(w: World, s: State, es: Entries, ph: Phase)
    requires es == s.entries && DigestsValid(w, s) && PhaseOK(w, es, ph)
    ensures forall n | n in Call(w, es, ph).0 ::
      (n.BlobEntry? ==> ValidDigest(n.digest)) && (n.MarkerEntry? ==> ValidDigest(n.blob))
  {
    forall n | n in Call(w, es, ph).0 && n !in es
      ensures (n.BlobEntry? ==> ValidDigest(n.digest)) && (n.MarkerEntry? ==> ValidDigest(n.blob))
    {
      CallAdds(w, es, ph, n);
      if n.BlobEntry? {
        UploadIsVerified(w, es, ph, n);
      }
    }
  }

  lemma UploadIsVerified(w: World, es: Entries, ph: Phase, n: Name)
    requires n in Call(w, es, ph).0 && n !in es && n.BlobEntry?
    ensures ValidDigest(n.digest)
  {
  }

  lemma {:induction false} RunKeepsDigestsValid(w: World, s: State, run: seq<(Pid, Event)>)
    requires IndexRoundTrip(w) && Inv(w, s) && DigestsValid(w, s) && Exec(w, s, run).Some?
    ensures DigestsValid(w, Exec(w, s, run).value)
    decreases |run|
  {
    if run != [] {
      var p, e := run[0].0, run[0].1;
      assert PhaseOK(w, s.entries, s.Phase(p));
      CallKeepsDigestsValid(w, s, s.entries, s.Phase(p));
      StepKeepsInv(w, s, p, e);
      RunKeepsDigestsValid(w, Step(w, s, p, e).value, run[1..]);
    }
  }

  /** In every reachable state only the diffIDs of markers and the leaves may be unfit for a path. */
  lemma ReachableTreeNames(w: World, s: State)
    requires IndexRoundTrip(w) && Reachable(w, s) && LeavesWellFormed(s.entries)
    ensures forall n | n in s.entries :: TreeName(n)
  {
    ReachableDigestsValid(w, s);
  }

  lemma ReachableDigestsValid(w: World, s: State)
    requires IndexRoundTrip(w) && Reachable(w, s)
    ensures DigestsValid(w, s)
  {
    var run :| Exec(w, NOTHING, run) == Some(s);
    assert forall leaf :: LeafClosed(w, NOTHING.entries, leaf);
    assert forall a, b :: MarkerHonest(w, NOTHING.entries, a, b);
    RunKeepsDigestsValid(w, NOTHING, run);
  }

  // ---------------------------------------------------------------------------------------------
  // Walk

  /** One yield of Walk: an image, or an error. */
  datatype Yielded = Image(ref: Reference, platform: Platform, manifest: Descriptor) | Error(why: Trouble)

  /** strings.CutSuffix. */
  function CutSuffix(s: string, suffix: string): Option<string> {
    if |suffix| <= |s| && s[|s| - |suffix|..] == suffix then Some(s[..|s| - |suffix|]) else None
  }

  function ManifestAt(w: World, files: Files, leaf: string): Option<Descriptor> {
    var name := Join([leaf, "index.json"]);
    if name !in files then None
    else
      match w.index(files[name])
      case None => None
      case Some(ms) => if |ms| == 1 then Some(ms[0]) else None
  }

  /** What Walk makes of one item of the listing; None is skipped. */
  function WalkItem(w: World, files: Files, item: Option<string>): Option<Yielded> {
    match item
    case None => Some(Error(ListFailed))
    case Some(name) =>
      match CutSuffix(name, "/index.json")
      case None => None
      case Some(leaf) =>
        match ParseLeaf(leaf)
        case None => None
        case Some((ref, p)) =>
          match ManifestAt(w, files, leaf)
          case None => Some(Error(BadLeaf))
          case Some(m) => Some(Image(ref, p, m))
  }

  method Walk(w: World, files: Files, l: Lister) returns (out: seq<Yielded>)
    ensures l.NotListable? ==> out == [Error(NoLister)]
    ensures l.Lists? ==> out == Gather(item => WalkItem(w, files, item), l.items)
  {
    if l.NotListable? {
      return [Error(NoLister)];
    }
    out := [];
    ghost var f := item => WalkItem(w, files, item);
    for i := 0 to |l.items|
      invariant out == Gather(f, l.items[..i])
    {
      assert l.items[..i + 1][..i] == l.items[..i];
      if l.items[i].None? {
        out := out + [Error(ListFailed)];
        continue;
      }
      var leaf := CutSuffix(l.items[i].value, "/index.json");
      if leaf.None? {
        continue;
      }
      var parsed := ParseLeaf(leaf.value);
      if parsed.None? {
        continue; // not a leaf of this tree
      }
      var m := ManifestAt(w, files, leaf.value);
      if m.None? {
        out := out + [Error(BadLeaf)];
      } else {
        out := out + [Image(parsed.value.0, parsed.value.1, m.value)];
      }
    }
    assert l.items[..|l.items|] == l.items;
  }

  lemma PlatformPrints(s: string, p: Platform)
    requires ParsePlatform(s) == Some(p)
    ensures Split(s) == PlatformParts(p)
  {
    var parts := Split(s);
    assert parts[|parts| - 1] in parts;
  }

  lemma PlatformSegs(segs: seq<string>, p: Platform)
    requires (forall i | 0 <= i < |segs| :: NoSlash(segs[i])) && ParsePlatform(JoinParts(segs)) == Some(p)
    ensures segs == PlatformParts(p)
  {
    PlatformPrints(JoinParts(segs), p);
    if segs != [] {
      SplitJoin(segs);
    }
  }

  lemma SegsPrint(segs: seq<string>, i: nat, k: nat, ref: Reference, p: Platform)
    requires 0 < i <= k <= |segs| && forall j | 0 <= j < |segs| :: NoSlash(segs[j])
    requires ref.repository == JoinParts(segs[..i]) && segs[i..k] == KeyParts(ref)
    requires ParsePlatform(JoinParts(segs[k..])) == Some(p)
    ensures segs == HeadParts(ref) + PlatformParts(p)
  {
    PlatformSegs(segs[k..], p);
    SplitJoin(segs[..i]);
    assert segs == segs[..i] + segs[i..k] + segs[k..];
  }

  /** What was parsed can only have been printed one way. */
  lemma ParsedPrints(segs: seq<string>, ref: Reference, p: Platform)
    requires forall i | 0 <= i < |segs| :: NoSlash(segs[i])
    requires ParseSegs(segs) == Some((ref, p))
    ensures segs == HeadParts(ref) + PlatformParts(p)
  {
    var i := MarkerIndex(segs);
    var k := if segs[i] == TAG_MARKER then i + 2 else i + 3;
    assert k <= |segs| && ParsePlatform(JoinParts(segs[k..])) == Some(p) && ref.repository == JoinParts(segs[..i])
      && segs[i..k] == KeyParts(ref);
    SegsPrint(segs, i, k, ref, p);
  }

  /** On every string, a leaf or not: two names that parse to one reference and platform are one name. */
  lemma ParseLeafInjective(a: string, b: string)
    requires ParseLeaf(a).Some? && ParseLeaf(a) == ParseLeaf(b)
    ensures a == b
  {
    var (ref, p) := ParseLeaf(a).value;
    var ra, rb := CutPrefix(a, "image_refs/").value, CutPrefix(b, "image_refs/").value;
    ParsedPrints(Split(ra), ref, p);
    ParsedPrints(Split(rb), ref, p);
    JoinSplit(ra);
    JoinSplit(rb);
    assert a == "image_refs/" + ra && b == "image_refs/" + rb;
  }

  lemma CutSuffixInjective(a: string, b: string, suffix: string)
    requires CutSuffix(a, suffix).Some? && CutSuffix(a, suffix) == CutSuffix(b, suffix)
    ensures a == b
  {
    assert a == a[..|a| - |suffix|] + suffix && b == b[..|b| - |suffix|] + suffix;
  }

  /** The name an image was yielded for. */
  lemma ImageName(w: World, files: Files, item: Option<string>) returns (leaf: string)
    requires WalkItem(w, files, item).Some? && WalkItem(w, files, item).value.Image?
    ensures item.Some? && CutSuffix(item.value, "/index.json") == Some(leaf)
    ensures var y := WalkItem(w, files, item).value;
      ParseLeaf(leaf) == Some((y.ref, y.platform)) && ManifestAt(w, files, leaf) == Some(y.manifest)
  {
    leaf := CutSuffix(item.value, "/index.json").value;
  }

  ghost predicate SameImage(a: Yielded, b: Yielded) {
    a.Image? && b.Image? && a.ref == b.ref && a.platform == b.platform
  }

  lemma WalkItemInjective(w: World, files: Files, a: Option<string>, b: Option<string>)
    requires WalkItem(w, files, a).Some? && WalkItem(w, files, b).Some?
    requires SameImage(WalkItem(w, files, a).value, WalkItem(w, files, b).value)
    ensures a == b
  {
    var la := ImageName(w, files, a);
    var lb := ImageName(w, files, b);
    ParseLeafInjective(la, lb);
    CutSuffixInjective(a.value, b.value, "/index.json");
  }

  /** Whatever else is listed, Walk never yields one reference and platform twice. */
  lemma WalkYieldsNoneTwice(w: World, files: Files, items: seq<Option<string>>)
    requires forall i, j | 0 <= i < j < |items| && items[i].Some? :: items[i] != items[j]
    ensures var out := Gather(item => WalkItem(w, files, item), items);
      forall i, j | 0 <= i < j < |out| :: !SameImage(out[i], out[j])
  {
    var f := item => WalkItem(w, files, item);
    var out := Gather(f, items);
    forall i, j | 0 <= i < j < |out| ensures !SameImage(out[i], out[j]) {
      var a, b := GatherPair(f, items, i, j);
      if SameImage(out[i], out[j]) {
        WalkItemInjective(w, files, items[a], items[b]);
        var leaf := ImageName(w, files, items[a]);
      }
    }
  }

  lemma SuffixCut(dir: string, suffix: string)
    ensures CutSuffix(dir + suffix, suffix) == Some(dir)
  {
  }

  lemma SplitFile(dir: string, file: string)
    requires NoSlash(file)
    ensures Split(dir + "/" + file) == Split(dir) + [file]
  {
    SplitConcat(dir, file);
    SplitOne(file);
  }

  lemma NotAMarker(n: Name, dir: seq<string>, file: string)
    requires TreeName(n) && Split(EntryPath(n)) == dir + [file] && |file| != 64
    ensures !n.MarkerEntry?
  {
    if n.MarkerEntry? {
      MarkerEndsInBlob(n.diffID, n.blob);
    }
  }

  /** An entry in the tree of leaves is the layout file or the index.json of one. */
  lemma LeafEntry(dir: string, file: string, n: Name)
    requires TreeName(n) && EntryPath(n) == dir + "/" + file && NoSlash(file) && |file| != 64
    requires Split(dir)[0] == "image_refs"
    ensures (n.LayoutEntry? && file == "oci-layout") || (n.IndexEntry? && file == "index.json")
    ensures dir == LeafPath.LeafPath(RefOf(n.leaf), n.leaf.platform)
  {
    SplitFile(dir, file);
    NotAMarker(n, Split(dir), file);
    EntrySplits(n);
    var parts := EntryParts(n);
    assert parts == Split(dir) + [file];
    assert parts[0] == "image_refs" && parts[|parts| - 1] == file;
    assert parts[..|parts| - 1] == Split(dir);
    assert n.LayoutEntry? || n.IndexEntry?;
    assert parts[..|parts| - 1] == LeafSegs(n.leaf);
    LeafSplits(n.leaf);
    JoinSplit(dir);
    JoinSplit(LeafPath.LeafPath(RefOf(n.leaf), n.leaf.platform));
  }

  /** The names Walk looks at are a leaf's name, a slash and index.json. */
  lemma LeafDir(name: string, dir: string)
    ensures CutSuffix(name, "/index.json") == Some(dir) <==> name == dir + "/" + "index.json"
  {
    assert dir + "/" + "index.json" == dir + "/index.json";
    SuffixCut(dir, "/index.json");
    if CutSuffix(name, "/index.json") == Some(dir) {
      assert name == dir + "/index.json";
    }
  }

  lemma ParsedUnderTree(dir: string)
    requires ParseLeaf(dir).Some?
    ensures Split(dir)[0] == "image_refs"
  {
    CutLeaf(dir, Split(dir));
  }

  lemma LeafFilesArePlain()
    ensures Plain("index.json") && Plain("oci-layout")
  {
  }

  lemma LeafOfRef(leaf: Leaf)
    ensures LeafOf(RefOf(leaf), leaf.platform) == leaf && Canonical(RefOf(leaf)) == RefOf(leaf)
  {
  }

  lemma IndexNameOf(leaf: Leaf, dir: string)
    requires WellFormedLeaf(leaf) && dir == LeafPath.LeafPath(RefOf(leaf), leaf.platform)
    ensures EntryPath(IndexEntry(leaf)) == Join([dir, "index.json"]) == dir + "/" + "index.json"
    ensures CutSuffix(EntryPath(IndexEntry(leaf)), "/index.json") == Some(dir)
  {
    LeafFilesArePlain();
    LeafFile(leaf, "index.json");
    LeafDir(EntryPath(IndexEntry(leaf)), dir);
  }

  lemma ParsesToLeaf(leaf: Leaf, dir: string)
    requires WellFormedLeaf(leaf) && dir == LeafPath.LeafPath(RefOf(leaf), leaf.platform)
    ensures ParseLeaf(dir) == Some((RefOf(leaf), leaf.platform)) && "image_refs/" <= dir
  {
    LeafOfRef(leaf);
    ParsesBack(RefOf(leaf), leaf.platform);
  }

  /** A leaf's index.json is a file with the bytes Commit wrote: no other entry has its path. */
  lemma IndexIsRendered(files: Files, es: Entries, leaf: Leaf)
    requires Renders(files, es) && (forall n | n in es :: TreeName(n)) && IndexEntry(leaf) in es
    ensures var path := EntryPath(IndexEntry(leaf)); path in files && files[path] == es[IndexEntry(leaf)]
  {
    var path := EntryPath(IndexEntry(leaf));
    assert TreeName(IndexEntry(leaf)) && path in files;
    var n :| n in es && EntryPath(n) == path && files[path] == es[n];
    LeafFileIsItsOwn(leaf, IndexEntry(leaf), n);
  }

  /** What Walk makes of a leaf's index.json. */
  lemma WalkOfLeaf(w: World, files: Files, es: Entries, leaf: Leaf, m: Descriptor)
    requires WellFormedLeaf(leaf) && LeafManifest(w, es, leaf) == Some(m)
    requires EntryPath(IndexEntry(leaf)) in files && files[EntryPath(IndexEntry(leaf))] == es[IndexEntry(leaf)]
    ensures "image_refs/" <= EntryPath(IndexEntry(leaf))
    ensures WalkItem(w, files, Some(EntryPath(IndexEntry(leaf)))) == Some(Image(RefOf(leaf), leaf.platform, m))
  {
    var dir := LeafPath.LeafPath(RefOf(leaf), leaf.platform);
    IndexNameOf(leaf, dir);
    ParsesToLeaf(leaf, dir);
  }

  /** In any files, the index.json of a leaf is never passed over: it gives its one manifest, or an error. */
  lemma BrokenLeafIsReported(w: World, files: Files, leaf: Leaf)
    requires WellFormedLeaf(leaf)
    ensures var path := EntryPath(IndexEntry(leaf));
      && (forall m | path in files && w.index(files[path]) == Some([m]) ::
            WalkItem(w, files, Some(path)) == Some(Image(RefOf(leaf), leaf.platform, m)))
      && ((forall m :: path in files ==> w.index(files[path]) != Some([m])) ==>
            WalkItem(w, files, Some(path)) == Some(Error(BadLeaf)))
  {
    var path, dir := EntryPath(IndexEntry(leaf)), LeafPath.LeafPath(RefOf(leaf), leaf.platform);
    IndexNameOf(leaf, dir);
    ParsesToLeaf(leaf, dir);
    if ManifestAt(w, files, dir).Some? {
      assert w.index(files[path]).value == [ManifestAt(w, files, dir).value];
    }
  }

  /** Everything Walk yields for a listed name comes from a committed leaf. */
  lemma WalkedIsLeaf(w: World, files: Files, es: Entries, name: string) returns (leaf: Leaf)
    requires Renders(files, es) && (forall n | n in es :: TreeName(n))
    requires name in files && WalkItem(w, files, Some(name)).Some?
    ensures IndexEntry(leaf) in es && name == EntryPath(IndexEntry(leaf))
  {
    var dir := CutSuffix(name, "/index.json").value;
    LeafDir(name, dir);
    ParsedUnderTree(dir);
    var n :| n in es && EntryPath(n) == name;
    LeafFilesArePlain();
    LeafEntry(dir, "index.json", n);
    leaf := n.leaf;
  }

  lemma WalkYieldsLeaf(w: World, files: Files, es: Entries, items: seq<Option<string>>, leaf: Leaf, m: Descriptor)
    requires Renders(files, es) && (forall n | n in es :: TreeName(n)) && LeafManifest(w, es, leaf) == Some(m)
    requires ListsOf(files, "image_refs/", items) && None !in items
    ensures Image(RefOf(leaf), leaf.platform, m) in Gather(item => WalkItem(w, files, item), items)
  {
    IndexIsRendered(files, es, leaf);
    assert TreeName(IndexEntry(leaf));
    WalkOfLeaf(w, files, es, leaf, m);
    GatherKeeps(item => WalkItem(w, files, item), items, Some(EntryPath(IndexEntry(leaf))));
  }

  /** An error List yielded, or a committed leaf with the manifest Resolve gives. */
  ghost predicate YieldOK(w: World, es: Entries, items: seq<Option<string>>, y: Yielded) {
    || (y == Error(ListFailed) && None in items)
    || (y.Image? && IndexEntry(LeafOf(y.ref, y.platform)) in es
      && Resolve(w, es, y.ref, y.platform) == Some(Resolved(y.manifest, true)))
  }

  lemma WalkYieldsOnlyLeaves(w: World, s: State, files: Files, items: seq<Option<string>>, y: Yielded)
    requires IndexRoundTrip(w) && Reachable(w, s) && (forall n | n in s.entries :: TreeName(n))
    requires Renders(files, s.entries) && ListsOf(files, "image_refs/", items)
    requires y in Gather(item => WalkItem(w, files, item), items)
    ensures YieldOK(w, s.entries, items, y)
  {
    var item := GatherSource(i => WalkItem(w, files, i), items, y);
    if item.Some? {
      var leaf := WalkedIsLeaf(w, files, s.entries, item.value);
      var job, m, cfg := LeavesAreClosed(w, s, leaf);
      IndexIsRendered(files, s.entries, leaf);
      assert TreeName(IndexEntry(leaf));
      WalkOfLeaf(w, files, s.entries, leaf, job.manifest);
      LeafOfRef(leaf);
    }
  }

  /**
   * Walk over a listing backend, in every reachable state: errors of the listing are passed on, each
   * image is a committed leaf with the manifest Resolve gives for it, none comes twice, and unless the
   * listing failed each committed leaf comes once. Markers may have any diffIDs.
   */
  lemma WalkYieldsEachLeafOnce(w: World, s: State, files: Files, items: seq<Option<string>>)
    requires IndexRoundTrip(w) && Reachable(w, s) && LeavesWellFormed(s.entries)
    requires Renders(files, s.entries) && ListsOf(files, "image_refs/", items)
    ensures var out := Gather(item => WalkItem(w, files, item), items);
      && (forall y | y in out :: YieldOK(w, s.entries, items, y))
      && (forall i, j | 0 <= i < j < |out| :: !SameImage(out[i], out[j]))
      && (None !in items ==> forall leaf | IndexEntry(leaf) in s.entries ::
            LeafManifest(w, s.entries, leaf).Some?
            && Image(RefOf(leaf), leaf.platform, LeafManifest(w, s.entries, leaf).value) in out)
  {
    ReachableTreeNames(w, s);
    WalkYieldsNoneTwice(w, files, items);
    var out := Gather(item => WalkItem(w, files, item), items);
    forall y | y in out ensures YieldOK(w, s.entries, items, y) {
      WalkYieldsOnlyLeaves(w, s, files, items, y);
    }
    if None !in items {
      forall leaf | IndexEntry(leaf) in s.entries
        ensures LeafManifest(w, s.entries, leaf).Some?
        ensures Image(RefOf(leaf), leaf.platform, LeafManifest(w, s.entries, leaf).value) in out
      {
        var job, m, cfg := LeavesAreClosed(w, s, leaf);
        WalkYieldsLeaf(w, files, s.entries, items, leaf, job.manifest);
      }
    }
  }

  // ---------------------------------------------------------------------------------------------
  // DiffIDBlobs

  /** strings.Cut(s, "/"): around the first slash. */
  function Cut(s: string): (r: Option<(string, string)>)
    ensures r.Some? ==> NoSlash(r.value.0) && s == r.value.0 + "/" + r.value.1
    ensures r.None? ==> NoSlash(s)
  {
    if s == "" then None
    else if s[0] == '/' then Some(("", s[1..]))
    else
      match Cut(s[1..])
      case None => None
      case Some((a, b)) => Some(([s[0]] + a, b))
  }

  function MarkedBlob(prefix: string, name: string): Option<Digest> {
    match CutPrefix(name, prefix)
    case None => None
    case Some(rest) =>
      match Cut(rest)
      case None => None
      case Some((alg, hex)) => if ValidDigest(Digest(alg, hex)) then Some(Digest(alg, hex)) else None
  }

  function MarkedItem(prefix: string, item: Option<string>): Option<Digest> {
    match item case None => None case Some(name) => MarkedBlob(prefix, name)
  }

  /** The blobs recorded for a diffID, or the first thing that stood in the way. */
  method DiffIDBlobs(diffID: Digest, l: Lister) returns (out: seq<Digest>, err: Option<Trouble>)
    ensures err == if !ValidDigest(diffID) then Some(BadDiffID)
      else if l.NotListable? then Some(NoLister)
      else if None in l.items then Some(ListFailed) else None
    ensures err.None? ==> out == Gather(item => MarkedItem(DiffIDDir(diffID) + "/", item), l.items)
    ensures err.Some? ==> out == []
  {
    if !ValidDigest(diffID) {
      return [], Some(BadDiffID);
    }
    if l.NotListable? {
      return [], Some(NoLister);
    }
    var prefix := DiffIDDir(diffID) + "/";
    out := [];
    ghost var f := item => MarkedItem(DiffIDDir(diffID) + "/", item);
    for i := 0 to |l.items|
      invariant out == Gather(f, l.items[..i]) && None !in l.items[..i]
    {
      assert l.items[..i + 1][..i] == l.items[..i];
      if l.items[i].None? {
        return [], Some(ListFailed);
      }
      var rest := CutPrefix(l.items[i].value, prefix);
      if rest.None? {
        continue;
      }
      var cut := Cut(rest.value);
      if cut.None? {
        continue;
      }
      var d := Digest(cut.value.0, cut.value.1);
      if ValidDigest(d) {
        out := out + [d];
      }
    }
    assert l.items[..|l.items|] == l.items;
    err := None;
  }

  lemma MarkedBlobInjective(prefix: string, a: string, b: string)
    requires MarkedBlob(prefix, a).Some? && MarkedBlob(prefix, a) == MarkedBlob(prefix, b)
    ensures a == b
  {
    assert a == prefix + a[|prefix|..] && b == prefix + b[|prefix|..];
  }

  lemma MarkerPath(a: Digest, b: Digest)
    requires ValidDigest(a) && ValidDigest(b)
    ensures EntryPath(MarkerEntry(a, b)) == DiffIDDir(a) + "/" + (b.alg + "/" + b.encoded)
  {
    MarkerSplits(a, b);
    DiffIDDirSplits(a);
    DigestIsPlain(b);
    SplitOne(b.encoded);
    SplitPart(b.alg, b.encoded);
    SplitConcat(DiffIDDir(a), b.alg + "/" + b.encoded);
    assert ["diff_ids", a.alg, a.encoded] + ([b.alg] + [b.encoded]) == EntryParts(MarkerEntry(a, b));
    JoinSplit(EntryPath(MarkerEntry(a, b)));
    JoinSplit(DiffIDDir(a) + "/" + (b.alg + "/" + b.encoded));
  }

  /** A marker's name yields its blob, and a name that yields a blob is that marker's. */
  lemma MarkedIsMarker(a: Digest, b: Digest, name: string)
    requires ValidDigest(a)
    ensures MarkedBlob(DiffIDDir(a) + "/", name) == Some(b) <==>
      ValidDigest(b) && name == EntryPath(MarkerEntry(a, b))
  {
    var prefix := DiffIDDir(a) + "/";
    if MarkedBlob(prefix, name) == Some(b) {
      assert name == prefix + name[|prefix|..];
      assert name == DiffIDDir(a) + "/" + (b.alg + "/" + b.encoded);
      MarkerPath(a, b);
    }
    if ValidDigest(b) && name == EntryPath(MarkerEntry(a, b)) {
      MarkerPath(a, b);
      var rest := b.alg + "/" + b.encoded;
      assert name == prefix + rest;
      assert CutPrefix(name, prefix) == Some(rest);
      CutIsFirst(b.alg, b.encoded);
    }
  }

  lemma {:induction false} CutIsFirst(a: string, b: string)
    requires NoSlash(a)
    ensures Cut(a + "/" + b) == Some((a, b))
    decreases |a|
  {
    if a == "" {
      assert a + "/" + b == "/" + b;
    } else {
      assert a[0] in a && (a + "/" + b)[1..] == a[1..] + "/" + b;
      CutIsFirst(a[1..], b);
      assert [a[0]] + a[1..] == a;
    }
  }

  /** Some entry's file is the marker file of this diffID and blob. */
  ghost predicate HasMarkerFile(es: Entries, diffID: Digest, b: Digest) {
    exists a :: MarkerEntry(a, b) in es && EntryPath(MarkerEntry(a, b)) == EntryPath(MarkerEntry(diffID, b))
  }

  lemma MarkerFileIsRendered(files: Files, es: Entries, diffID: Digest, b: Digest)
    requires Renders(files, es) && (forall n | n in es :: TreeName(n)) && ValidDigest(diffID) && ValidDigest(b)
    ensures EntryPath(MarkerEntry(diffID, b)) in files <==> HasMarkerFile(es, diffID, b)
  {
    var path := EntryPath(MarkerEntry(diffID, b));
    if path in files {
      var n :| n in es && EntryPath(n) == path;
      MarkerFileIsAMarker(diffID, b, n);
      assert MarkerEntry(n.diffID, b) in es;
    }
    if HasMarkerFile(es, diffID, b) {
      var a :| MarkerEntry(a, b) in es && EntryPath(MarkerEntry(a, b)) == path;
    }
  }

  lemma MarkedHasFile(files: Files, diffID: Digest, items: seq<Option<string>>, b: Digest)
    requires ValidDigest(diffID) && ListsOf(files, DiffIDDir(diffID) + "/", items) && None !in items
    ensures b in Gather(item => MarkedItem(DiffIDDir(diffID) + "/", item), items)
      <==> ValidDigest(b) && EntryPath(MarkerEntry(diffID, b)) in files
  {
    var f := item => MarkedItem(DiffIDDir(diffID) + "/", item);
    var path := EntryPath(MarkerEntry(diffID, b));
    if b in Gather(f, items) {
      var item := GatherSource(f, items, b);
      MarkedIsMarker(diffID, b, item.value);
    }
    if ValidDigest(b) && path in files {
      MarkedIsMarker(diffID, b, path);
      assert DiffIDDir(diffID) + "/" <= path;
      GatherKeeps(f, items, Some(path));
    }
  }

  /**
   * DiffIDBlobs, in every reachable state, returns each blob once, and exactly those for which some
   * marker's file is the marker file of the diffID.
   */
  lemma DiffIDBlobsAreTheFiles(w: World, s: State, files: Files, diffID: Digest, items: seq<Option<string>>)
    requires IndexRoundTrip(w) && Reachable(w, s) && LeavesWellFormed(s.entries) && Renders(files, s.entries)
    requires ValidDigest(diffID) && ListsOf(files, DiffIDDir(diffID) + "/", items) && None !in items
    ensures var out := Gather(item => MarkedItem(DiffIDDir(diffID) + "/", item), items);
      NoDuplicates(out) && forall b :: b in out <==> HasMarkerFile(s.entries, diffID, b)
  {
    var f := item => MarkedItem(DiffIDDir(diffID) + "/", item);
    var out := Gather(f, items);
    ReachableTreeNames(w, s);
    forall i, j | 0 <= i < j < |out| ensures out[i] != out[j] {
      var a, b := GatherPair(f, items, i, j);
      if out[i] == out[j] {
        MarkedBlobInjective(DiffIDDir(diffID) + "/", items[a].value, items[b].value);
      }
    }
    forall b ensures b in out <==> HasMarkerFile(s.entries, diffID, b) {
      MarkedHasFile(files, diffID, items, b);
      forall a | MarkerEntry(a, b) in s.entries ensures ValidDigest(b) {
        assert TreeName(MarkerEntry(a, b));
      }
      if ValidDigest(b) {
        MarkerFileIsRendered(files, s.entries, diffID, b);
      }
    }
  }
}
