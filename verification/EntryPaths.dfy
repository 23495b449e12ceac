/** The store's entries as path names, and which of them have a path of their own. */
module EntryPaths {
  import opened Content
  import opened ImageModel
  import opened Paths
  import opened LeafPath
  import opened StoreProtocol

  /** The reference a leaf stands for. */
  function RefOf(leaf: Leaf): Reference {
    match leaf.key
    case Tagged(tag) => Reference(leaf.repository, tag, None)
    case Pinned(d) => Reference(leaf.repository, "", Some(d))
  }

  function DiffIDDir(diffID: Digest): string {
    Join(["diff_ids", diffID.alg, diffID.encoded])
  }

  function EntryPath(n: Name): string {
    match n
    case BlobEntry(d) => Join(["shared/blobs", d.alg, d.encoded])
    case MarkerEntry(a, b) => Join(["diff_ids", a.alg, a.encoded, b.alg, b.encoded])
    case LayoutEntry(leaf) => Join([LeafPath.LeafPath(RefOf(leaf), leaf.platform), "oci-layout"])
    case IndexEntry(leaf) => Join([LeafPath.LeafPath(RefOf(leaf), leaf.platform), "index.json"])
  }

  predicate WellFormedLeaf(leaf: Leaf) {
    WellFormedRef(RefOf(leaf)) && Accepted(leaf.platform) && NoDots(leaf.platform)
  }

  predicate WellFormedName(n: Name) {
    match n
    case BlobEntry(d) => ValidDigest(d)
    case MarkerEntry(a, b) => ValidDigest(a) && ValidDigest(b)
    case LayoutEntry(leaf) => WellFormedLeaf(leaf)
    case IndexEntry(leaf) => WellFormedLeaf(leaf)
  }

  // ---------------------------------------------------------------------------------------------
  // Paths of entries

  function LeafSegs(leaf: Leaf): seq<string> {
    ["image_refs"] + HeadParts(RefOf(leaf)) + PlatformParts(leaf.platform)
  }

  function EntryParts(n: Name): (parts: seq<string>)
    ensures parts != []
  {
    match n
    case BlobEntry(d) => ["shared", "blobs"] + [d.alg, d.encoded]
    case MarkerEntry(a, b) => ["diff_ids"] + [a.alg, a.encoded, b.alg, b.encoded]
    case LayoutEntry(leaf) => LeafSegs(leaf) + ["oci-layout"]
    case IndexEntry(leaf) => LeafSegs(leaf) + ["index.json"]
  }

  /** Clean leaves a name of plain parts as it is. */
  lemma CleanIsIdentity(s: string)
    requires AllPlain(Split(s))
    ensures Clean(s) == s
  {
    CleanKeepsPlain([], Split(s));
    assert [] + Split(s) == Split(s);
    JoinSplit(s);
  }

  /** path.Join of clean elements only puts slashes between them. */
  lemma PlainJoin(elems: seq<string>, rest: seq<string>)
    requires |elems| > 1 && rest == elems[1..] && AllPlain(Split(elems[0])) && AllPlain(rest)
    ensures Join(elems) == elems[0] + "/" + JoinParts(rest)
    ensures Split(Join(elems)) == Split(elems[0]) + rest
  {
    var joined := elems[0] + "/" + JoinParts(rest);
    assert elems[0] != "" by {
      assert Plain(Split(elems[0])[0]);
    }
    assert forall i | 0 < i < |elems| :: elems[i] == rest[i - 1];
    NoneEmpty(elems);
    SplitJoin(rest);
    SplitConcat(elems[0], JoinParts(rest));
    assert AllPlain(Split(joined));
    CleanIsIdentity(joined);
  }

  lemma DigestIsPlain(d: Digest)
    requires ValidDigest(d)
    ensures Plain(d.alg) && Plain(d.encoded)
  {
    HexHasNoSlash(d.encoded);
  }

  lemma LeafSplits(leaf: Leaf)
    requires WellFormedLeaf(leaf)
    ensures Split(LeafPath.LeafPath(RefOf(leaf), leaf.platform)) == LeafSegs(leaf) && AllPlain(LeafSegs(leaf))
  {
    LeafParts(RefOf(leaf), leaf.platform);
    DotlessParts(RefOf(leaf), leaf.platform);
  }

  lemma LeafFile(leaf: Leaf, file: string)
    requires WellFormedLeaf(leaf) && Plain(file)
    ensures var dir := LeafPath.LeafPath(RefOf(leaf), leaf.platform);
      Join([dir, file]) == dir + "/" + file && Split(Join([dir, file])) == LeafSegs(leaf) + [file]
  {
    LeafSplits(leaf);
    var dir := LeafPath.LeafPath(RefOf(leaf), leaf.platform);
    PlainJoin([dir, file], [file]);
  }

  lemma DiffIDDirSplits(a: Digest)
    requires ValidDigest(a)
    ensures Split(DiffIDDir(a)) == ["diff_ids", a.alg, a.encoded] && AllPlain(Split(DiffIDDir(a)))
  {
    DigestIsPlain(a);
    SplitOne("diff_ids");
    PlainJoin(["diff_ids", a.alg, a.encoded], [a.alg, a.encoded]);
  }

  lemma MarkerSplits(a: Digest, b: Digest)
    requires ValidDigest(a) && ValidDigest(b)
    ensures Split(EntryPath(MarkerEntry(a, b))) == EntryParts(MarkerEntry(a, b))
  {
    DigestIsPlain(a);
    DigestIsPlain(b);
    SplitOne("diff_ids");
    var rest := [a.alg, a.encoded, b.alg, b.encoded];
    PlainJoin(["diff_ids", a.alg, a.encoded, b.alg, b.encoded], rest);
  }

  lemma BlobSplits(d: Digest)
    requires ValidDigest(d)
    ensures Split(EntryPath(BlobEntry(d))) == EntryParts(BlobEntry(d))
  {
    DigestIsPlain(d);
    assert Split("shared/blobs") == ["shared", "blobs"] by {
      SplitPart("shared", "blobs");
      SplitOne("blobs");
      assert "shared/blobs" == "shared" + "/" + "blobs";
      assert ["shared"] + ["blobs"] == ["shared", "blobs"];
    }
    PlainJoin(["shared/blobs", d.alg, d.encoded], [d.alg, d.encoded]);
  }

  lemma EntrySplits(n: Name)
    requires WellFormedName(n)
    ensures Split(EntryPath(n)) == EntryParts(n)
  {
    match n
    case BlobEntry(d) => BlobSplits(d);
    case MarkerEntry(a, b) => MarkerSplits(a, b);
    case LayoutEntry(leaf) => LeafFile(leaf, "oci-layout");
    case IndexEntry(leaf) => LeafFile(leaf, "index.json");
  }

  /** The path of a blob, written out. */
  lemma BlobPathIs(d: Digest)
    requires ValidDigest(d)
    ensures EntryPath(BlobEntry(d)) == "shared" + "/" + "blobs" + "/" + d.alg + "/" + d.encoded
  {
    BlobSplits(d);
    JoinSplit(EntryPath(BlobEntry(d)));
    JoinFour("shared", "blobs", d.alg, d.encoded);
    assert ["shared", "blobs"] + [d.alg, d.encoded] == ["shared", "blobs", d.alg, d.encoded];
  }

  /** The path of a marker, written out. */
  lemma MarkerPathIs(a: Digest, b: Digest)
    requires ValidDigest(a) && ValidDigest(b)
    ensures EntryPath(MarkerEntry(a, b)) ==
      "diff_ids" + "/" + (a.alg + "/" + a.encoded + "/" + b.alg + "/" + b.encoded)
  {
    MarkerSplits(a, b);
    JoinSplit(EntryPath(MarkerEntry(a, b)));
    JoinCons("diff_ids", [a.alg, a.encoded, b.alg, b.encoded]);
    JoinFour(a.alg, a.encoded, b.alg, b.encoded);
  }

  /** The files of a leaf, written out. */
  lemma LeafFilesAre(leaf: Leaf)
    requires WellFormedLeaf(leaf)
    ensures var dir := LeafPath.LeafPath(RefOf(leaf), leaf.platform);
      && EntryPath(LayoutEntry(leaf)) == dir + "/" + "oci-layout"
      && EntryPath(IndexEntry(leaf)) == dir + "/" + "index.json"
  {
    LeafFile(leaf, "oci-layout");
    LeafFile(leaf, "index.json");
  }

  lemma LeafSegsInjective(a: Leaf, b: Leaf)
    requires WellFormedLeaf(a) && WellFormedLeaf(b) && LeafSegs(a) == LeafSegs(b)
    ensures a == b
  {
    LeafSplits(a);
    LeafSplits(b);
    JoinSplit(LeafPath.LeafPath(RefOf(a), a.platform));
    JoinSplit(LeafPath.LeafPath(RefOf(b), b.platform));
    LeafPathInjective(RefOf(a), a.platform, RefOf(b), b.platform);
    assert LeafOf(RefOf(a), a.platform) == a && LeafOf(RefOf(b), b.platform) == b;
  }

  /** No two entries of the tree share a path. */
  lemma EntryPathInjective(a: Name, b: Name)
    requires WellFormedName(a) && WellFormedName(b) && EntryPath(a) == EntryPath(b)
    ensures a == b
  {
    EntrySplits(a);
    EntrySplits(b);
    var parts := EntryParts(a);
    assert parts == EntryParts(b);
    if parts[0] == "image_refs" {
      var la, lb := a.leaf, b.leaf;
      assert parts[|parts| - 1] == (if a.LayoutEntry? then "oci-layout" else "index.json");
      assert parts[..|parts| - 1] == LeafSegs(la) && parts[..|parts| - 1] == LeafSegs(lb);
      LeafSegsInjective(la, lb);
    } else if parts[0] == "diff_ids" {
      assert parts[1] == a.diffID.alg && parts[2] == a.diffID.encoded;
      assert parts[3] == a.blob.alg && parts[4] == a.blob.encoded;
    } else {
      assert parts[2] == a.digest.alg && parts[3] == a.digest.encoded;
    }
  }

  // ---------------------------------------------------------------------------------------------
  // Markers of malformed diffIDs

  lemma {:induction false} NonEmptyConcat(a: seq<string>, b: seq<string>)
    ensures NonEmpty(a + b) == NonEmpty(a) + NonEmpty(b)
    decreases |a|
  {
    if a == [] {
      assert a + b == b;
    } else {
      assert (a + b)[1..] == a[1..] + b;
      NonEmptyConcat(a[1..], b);
    }
  }

  lemma {:induction false} CleanKeepsNoSlash(stack: seq<string>, parts: seq<string>)
    requires (forall i | 0 <= i < |stack| :: NoSlash(stack[i])) && forall i | 0 <= i < |parts| :: NoSlash(parts[i])
    ensures forall i | 0 <= i < |CleanFrom(stack, parts)| :: NoSlash(CleanFrom(stack, parts)[i])
    decreases |parts|
  {
    if parts != [] {
      CleanKeepsNoSlash(Paths.Push(stack, parts[0]), parts[1..]);
    }
  }

  /** What path.Join leaves of the elements before the last, plain ones. */
  function Kept(elems: seq<string>): seq<string> {
    CleanFrom([], Split(JoinParts(NonEmpty(elems))))
  }

  /** Cleaning cannot reach back from the end: plain last elements stay last, whatever stands before them. */
  lemma JoinEndsPlain(elems: seq<string>, last: seq<string>)
    requires AllPlain(last) && last != [] && NonEmpty(elems) != []
    ensures Split(Join(elems + last)) == Kept(elems) + last
  {
    var some := NonEmpty(elems);
    var split := Split(JoinParts(some));
    NonEmptyConcat(elems, last);
    NoneEmpty(last);
    JoinConcat(some, last);
    SplitJoin(last);
    SplitConcat(JoinParts(some), JoinParts(last));
    CleanFromConcat([], split, last);
    CleanKeepsPlain(Kept(elems), last);
    CleanKeepsNoSlash([], split);
    SplitJoin(Kept(elems) + last);
  }

  /** A marker's path ends in its blob's digest, even when its diffID is malformed. */
  lemma MarkerEndsInBlob(a: Digest, b: Digest)
    requires ValidDigest(b)
    ensures var parts := Split(EntryPath(MarkerEntry(a, b)));
      |parts| >= 2 && parts[|parts| - 2] == b.alg && parts[|parts| - 1] == b.encoded
  {
    DigestIsPlain(b);
    var elems, last := ["diff_ids", a.alg, a.encoded], [b.alg, b.encoded];
    assert elems + last == ["diff_ids", a.alg, a.encoded, b.alg, b.encoded];
    JoinEndsPlain(elems, last);
  }

  /** The names a store has: only the diffID of a marker is not checked before it is used in a path. */
  predicate TreeName(n: Name) {
    match n
    case BlobEntry(d) => ValidDigest(d)
    case MarkerEntry(_, b) => ValidDigest(b)
    case LayoutEntry(leaf) => WellFormedLeaf(leaf)
    case IndexEntry(leaf) => WellFormedLeaf(leaf)
  }

  lemma BlobIsNoLeafFile(b: Digest)
    requires ValidDigest(b)
    ensures b.encoded != "index.json" && b.encoded != "oci-layout"
  {
  }

  /** The files of a leaf share their path with no other entry, not even with the marker of a malformed diffID. */
  lemma LeafFileIsItsOwn(leaf: Leaf, a: Name, b: Name)
    requires a == LayoutEntry(leaf) || a == IndexEntry(leaf)
    requires WellFormedLeaf(leaf) && TreeName(b) && EntryPath(a) == EntryPath(b)
    ensures a == b
  {
    if b.MarkerEntry? {
      EntrySplits(a);
      MarkerEndsInBlob(b.diffID, b.blob);
      BlobIsNoLeafFile(b.blob);
    } else {
      EntryPathInjective(a, b);
    }
  }

  /** Only a marker can have the path of a marker of a valid diffID, and then for the same blob. */
  lemma MarkerFileIsAMarker(d: Digest, b: Digest, n: Name)
    requires ValidDigest(d) && ValidDigest(b) && TreeName(n) && EntryPath(n) == EntryPath(MarkerEntry(d, b))
    ensures n.MarkerEntry? && n.blob == b
  {
    if n.MarkerEntry? {
      MarkerEndsInBlob(n.diffID, n.blob);
      MarkerEndsInBlob(d, b);
    } else {
      EntryPathInjective(n, MarkerEntry(d, b));
    }
  }

  /** path.Join of elements with something left of them, part by part. */
  lemma JoinIsKept(elems: seq<string>)
    requires NonEmpty(elems) != []
    ensures Join(elems) == if Kept(elems) == [] then "." else JoinParts(Kept(elems))
    ensures Kept(elems) != [] ==> Split(Join(elems)) == Kept(elems)
  {
    var split := Split(JoinParts(NonEmpty(elems)));
    CleanKeepsNoSlash([], split);
    if Kept(elems) != [] {
      SplitJoin(Kept(elems));
    }
  }

  /** The marker of any diffID is the file of a valid diffID's marker exactly when their directories are one. */
  lemma SameMarkerFile(a: Digest, d: Digest, b: Digest)
    requires ValidDigest(d) && ValidDigest(b)
    ensures EntryPath(MarkerEntry(a, b)) == EntryPath(MarkerEntry(d, b)) <==> DiffIDDir(a) == DiffIDDir(d)
  {
    DigestIsPlain(b);
    DiffIDDirSplits(d);
    var ofA, ofD, last := ["diff_ids", a.alg, a.encoded], ["diff_ids", d.alg, d.encoded], [b.alg, b.encoded];
    assert ofA + last == ["diff_ids", a.alg, a.encoded, b.alg, b.encoded];
    assert ofD + last == ["diff_ids", d.alg, d.encoded, b.alg, b.encoded];
    JoinEndsPlain(ofA, last);
    JoinEndsPlain(ofD, last);
    JoinIsKept(ofA);
    JoinIsKept(ofD);
    SplitOne(".");
    JoinSplit(EntryPath(MarkerEntry(a, b)));
    JoinSplit(EntryPath(MarkerEntry(d, b)));
    SameFront(Kept(ofA), Kept(ofD), last);
  }

  lemma SameFront<T>(a: seq<T>, b: seq<T>, last: seq<T>)
    ensures a + last == b + last <==> a == b
  {
    if a + last == b + last {
      assert |a| == |b|;
      assert a == (a + last)[..|a|] && b == (b + last)[..|b|];
    }
  }

  /** Two valid diffIDs have one directory only if they are one. */
  lemma DiffIDDirInjective(a: Digest, d: Digest)
    requires ValidDigest(a) && ValidDigest(d) && DiffIDDir(a) == DiffIDDir(d)
    ensures a == d
  {
    DiffIDDirSplits(a);
    DiffIDDirSplits(d);
  }

  /** A malformed diffID whose encoded part climbs back: `sha256:x/../` and the hex of another diffID. */
  function Climbing(d: Digest): Digest {
    Digest(d.alg, "x/../" + d.encoded)
  }

  lemma ClimbingSplits(d: Digest)
    requires ValidDigest(d)
    ensures Split(Climbing(d).encoded) == ["x", "..", d.encoded]
  {
    DigestIsPlain(d);
    SplitOne(d.encoded);
    SplitPart("..", d.encoded);
    SplitPart("x", ".." + "/" + d.encoded);
    assert "x" + "/" + (".." + "/" + d.encoded) == "x/../" + d.encoded;
    assert ["x"] + ([".."] + [d.encoded]) == ["x", "..", d.encoded];
  }

  lemma ClimbingIsCleaned(d: Digest)
    requires ValidDigest(d)
    ensures Kept(["diff_ids", d.alg, Climbing(d).encoded]) == ["diff_ids", d.alg, d.encoded]
  {
    DigestIsPlain(d);
    ClimbingSplits(d);
    var e := Climbing(d).encoded;
    var elems := ["diff_ids", d.alg, e];
    NoneEmpty(elems);
    assert elems[1..] == [d.alg, e] && [d.alg, e][1..] == [e];
    assert JoinParts([d.alg, e]) == d.alg + "/" + JoinParts([e]) == d.alg + "/" + e;
    assert JoinParts(elems) == "diff_ids" + "/" + (d.alg + "/" + e);
    SplitPart("diff_ids", d.alg + "/" + e);
    SplitPart(d.alg, e);
    var a, b, c, f := "diff_ids", d.alg, "x", d.encoded;
    assert [a] + ([b] + [c, "..", f]) == [a, b, c, "..", f];
    CleanClimbs(a, b, c, f);
  }

  lemma CleanClimbs(a: string, b: string, c: string, d: string)
    requires Plain(a) && Plain(b) && Plain(c) && Plain(d)
    ensures CleanFrom([], [a, b, c, "..", d]) == [a, b, d]
  {
    var parts := [a, b, c, "..", d];
    assert parts == [a, b, c] + ["..", d];
    CleanFromConcat([], [a, b, c], ["..", d]);
    CleanKeepsPlain([], [a, b, c]);
    assert [] + [a, b, c] == [a, b, c];
    assert ["..", d][1..] == [d] && [a, b, c][..2] == [a, b];
    CleanKeepsPlain([a, b], [d]);
    assert [a, b] + [d] == [a, b, d];
  }

  /** The marker of such a diffID is the file of the other diffID's marker. */
  lemma ClimbingTakesMarker(d: Digest, b: Digest)
    requires ValidDigest(d) && ValidDigest(b)
    ensures !ValidDigest(Climbing(d)) && EntryPath(MarkerEntry(Climbing(d), b)) == EntryPath(MarkerEntry(d, b))
  {
    DigestIsPlain(d);
    DigestIsPlain(b);
    var e := Climbing(d).encoded;
    var last := [b.alg, b.encoded];
    assert ["diff_ids", d.alg, e] + last == ["diff_ids", d.alg, e, b.alg, b.encoded];
    JoinEndsPlain(["diff_ids", d.alg, e], last);
    ClimbingIsCleaned(d);
    MarkerSplits(d, b);
    assert ["diff_ids", d.alg, d.encoded] + last == EntryParts(MarkerEntry(d, b));
    JoinSplit(EntryPath(MarkerEntry(Climbing(d), b)));
    JoinSplit(EntryPath(MarkerEntry(d, b)));
    assert |e| == |d.encoded| + 5;
  }
}
