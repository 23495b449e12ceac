/** Walks over the documents of an image layout: ordered blob lists, known descriptors, nested search. */
module Walks {
  import opened Content
  import opened ImageModel

  /** What reading a blob as an index or as a manifest gives; None when it is missing or malformed. */
  datatype Layout = Layout(index: Digest -> Option<seq<Descriptor>>, manifest: Digest -> Option<Manifest>)

  /** The media type each digest has wherever a descriptor names it. */
  type Kinds = Digest -> string

  predicate IsLeafKind(mediaType: string) {
    !IsIndex(mediaType) && !IsManifest(mediaType)
  }

  /** The digests the document `x` refers to. */
  ghost predicate Refers(l: Layout, kinds: Kinds, x: Digest, y: Digest) {
    if IsIndex(kinds(x)) then
      l.index(x).Some? && exists i | 0 <= i < |l.index(x).value| :: l.index(x).value[i].digest == y
    else if IsManifest(kinds(x)) then
      l.manifest(x).Some? &&
      (y == l.manifest(x).value.config.digest
        || exists i | 0 <= i < |l.manifest(x).value.layers| :: l.manifest(x).value.layers[i].digest == y)
    else false
  }

  predicate Readable(l: Layout, kinds: Kinds, x: Digest) {
    (IsIndex(kinds(x)) ==> l.index(x).Some?) && (!IsIndex(kinds(x)) && IsManifest(kinds(x)) ==> l.manifest(x).Some?)
  }

  predicate Agree(kinds: Kinds, descs: seq<Descriptor>) {
    forall i | 0 <= i < |descs| :: descs[i].mediaType == kinds(descs[i].digest)
  }

  /** Media types are a function of the digest in every index. */
  ghost predicate IndexesAgree(l: Layout, kinds: Kinds) {
    forall x | IsIndex(kinds(x)) && l.index(x).Some? :: Agree(kinds, l.index(x).value)
  }

  /** And layers and configs are neither indexes nor manifests. */
  ghost predicate Typed(l: Layout, kinds: Kinds) {
    && IndexesAgree(l, kinds)
    && (forall x, y | IsManifest(kinds(x)) && Refers(l, kinds, x, y) :: IsLeafKind(kinds(y)))
  }

  /** References go down in rank: no index contains itself, however deep. */
  ghost predicate Acyclic(l: Layout, kinds: Kinds, rank: Digest -> nat) {
    forall x, y | IsIndex(kinds(x)) && Refers(l, kinds, x, y) :: rank(y) < rank(x)
  }

  ghost predicate IsPath(l: Layout, kinds: Kinds, path: seq<Digest>) {
    path != [] && forall i | 0 <= i < |path| - 1 :: Refers(l, kinds, path[i], path[i + 1])
  }

  /** `y` is `x` or reached from it by references. */
  ghost predicate Reaches(l: Layout, kinds: Kinds, x: Digest, y: Digest) {
    exists path :: IsPath(l, kinds, path) && path[0] == x && path[|path| - 1] == y
  }

  lemma ReachesSelf(l: Layout, kinds: Kinds, x: Digest)
    ensures Reaches(l, kinds, x, x)
  {
    assert IsPath(l, kinds, [x]) && [x][0] == x;
  }

  lemma ReachesStep(l: Layout, kinds: Kinds, x: Digest, y: Digest, z: Digest)
    requires Refers(l, kinds, x, y) && Reaches(l, kinds, y, z)
    ensures Reaches(l, kinds, x, z)
  {
    var path :| IsPath(l, kinds, path) && path[0] == y && path[|path| - 1] == z;
    var longer := [x] + path;
    assert IsPath(l, kinds, longer) && longer[0] == x && longer[|longer| - 1] == z;
  }

  /** A set closed under references that holds `x` holds all that `x` reaches. */
  lemma {:induction false} ClosedHoldsPath(l: Layout, kinds: Kinds, s: set<Digest>, path: seq<Digest>)
    requires IsPath(l, kinds, path) && path[0] in s
    requires forall x, y | x in s && Refers(l, kinds, x, y) :: y in s
    ensures path[|path| - 1] in s
    decreases |path|
  {
    if |path| > 1 {
      ClosedHoldsPath(l, kinds, s, path[1..]);
    }
  }

  // ---------------------------------------------------------------------------------------------
  // Blobs, dependencies first

  /** Every blob comes after all blobs it refers to. */
  ghost predicate ReferencesFirst(l: Layout, kinds: Kinds, ordered: seq<Digest>) {
    forall i, y | 0 <= i < |ordered| && Refers(l, kinds, ordered[i], y) :: Before(ordered, i, y)
  }

  ghost predicate Before(ordered: seq<Digest>, i: nat, y: Digest) {
    exists j :: 0 <= j < i && j < |ordered| && ordered[j] == y
  }

  lemma AppendKeepsOrder(l: Layout, kinds: Kinds, ordered: seq<Digest>, d: Digest)
    requires ReferencesFirst(l, kinds, ordered)
    requires forall y | Refers(l, kinds, d, y) :: y in ordered
    ensures ReferencesFirst(l, kinds, ordered + [d])
  {
    var longer := ordered + [d];
    forall i, y | 0 <= i < |longer| && Refers(l, kinds, longer[i], y)
      ensures Before(longer, i, y)
    {
      if i < |ordered| {
        assert Before(ordered, i, y);
        var j :| 0 <= j < i && ordered[j] == y;
        assert longer[j] == y;
      } else {
        var j :| 0 <= j < |ordered| && ordered[j] == y;
        assert longer[j] == y;
      }
    }
  }

  ghost predicate AllReadable(l: Layout, kinds: Kinds, ordered: seq<Digest>) {
    forall i | 0 <= i < |ordered| :: Readable(l, kinds, ordered[i])
  }

  /** `later` extends `ordered` with digests reached from `from`. */
  ghost predicate Extends(l: Layout, kinds: Kinds, ordered: seq<Digest>, later: seq<Digest>, from: Digest) {
    ordered <= later && forall i | |ordered| <= i < |later| :: Reaches(l, kinds, from, later[i])
  }

  lemma ExtendsVia(l: Layout, kinds: Kinds, a: seq<Digest>, b: seq<Digest>, c: seq<Digest>, x: Digest, y: Digest)
    requires Extends(l, kinds, a, b, x) && Extends(l, kinds, b, c, y) && Refers(l, kinds, x, y)
    ensures Extends(l, kinds, a, c, x)
  {
    forall i | |a| <= i < |c| ensures Reaches(l, kinds, x, c[i]) {
      if i < |b| {
        assert c[i] == b[i];
      } else {
        ReachesStep(l, kinds, x, y, c[i]);
      }
    }
  }

  lemma NewAreReached(l: Layout, kinds: Kinds, ordered: seq<Digest>, later: seq<Digest>, from: Digest)
    requires Extends(l, kinds, ordered, later, from)
    ensures forall d | d in later && d !in ordered :: Reaches(l, kinds, from, d)
  {
    forall d | d in later && d !in ordered ensures Reaches(l, kinds, from, d) {
      var j :| 0 <= j < |later| && later[j] == d;
      assert j >= |ordered|;
    }
  }

  /** Some document reached from `from` cannot be read. */
  ghost predicate Broken(l: Layout, kinds: Kinds, from: Digest) {
    exists y :: Reaches(l, kinds, from, y) && !Readable(l, kinds, y)
  }

  lemma BrokenVia(l: Layout, kinds: Kinds, x: Digest, y: Digest)
    requires Broken(l, kinds, y) && Refers(l, kinds, x, y)
    ensures Broken(l, kinds, x)
  {
    var z :| Reaches(l, kinds, y, z) && !Readable(l, kinds, z);
    ReachesStep(l, kinds, x, y, z);
  }

  ghost predicate ReachedFrom(l: Layout, kinds: Kinds, roots: seq<Descriptor>, y: Digest) {
    exists i :: 0 <= i < |roots| && Reaches(l, kinds, roots[i].digest, y)
  }

  ghost predicate SomeBroken(l: Layout, kinds: Kinds, roots: seq<Descriptor>) {
    exists i :: 0 <= i < |roots| && Broken(l, kinds, roots[i].digest)
  }

  lemma LeafRefersToNothing(l: Layout, kinds: Kinds, x: Digest, y: Digest)
    requires Typed(l, kinds) && IsManifest(kinds(x)) && Refers(l, kinds, x, y)
    ensures Readable(l, kinds, y) && forall z :: !Refers(l, kinds, y, z)
  {
  }

  lemma AppendExtends(l: Layout, kinds: Kinds, ordered: seq<Digest>, x: Digest, y: Digest)
    requires Refers(l, kinds, x, y)
    ensures Extends(l, kinds, ordered, ordered, x) && Extends(l, kinds, ordered, ordered + [y], x)
  {
    ReachesSelf(l, kinds, y);
    ReachesStep(l, kinds, x, y, y);
  }

  /** Digests in `r`, and one more walk from a root whose descendants are all in `r`. */
  lemma StaysWithin(l: Layout, kinds: Kinds, ordered: seq<Digest>, later: seq<Digest>, root: Digest, r: iset<Digest>)
    requires Extends(l, kinds, ordered, later, root) && forall d | d in ordered :: d in r
    requires forall y | Reaches(l, kinds, root, y) :: y in r
    ensures forall d | d in later :: d in r
  {
    NewAreReached(l, kinds, ordered, later, root);
  }

  class Walker {
    const l: Layout
    ghost const kinds: Kinds
    var seen: set<Digest>
    var ordered: seq<Digest>

    constructor (l: Layout, ghost kinds: Kinds)
      ensures Valid() && this.l == l && this.kinds == kinds && ordered == []
    {
      this.l := l;
      this.kinds := kinds;
      seen := {};
      ordered := [];
    }

    ghost predicate Valid()
      reads this
    {
      && (forall d :: d in seen <==> d in ordered)
      && NoDuplicates(ordered)
      && ReferencesFirst(l, kinds, ordered)
      && AllReadable(l, kinds, ordered)
    }

    /** Appends a digest seen for the first time; what it refers to must be there. */
    method Add(d: Digest)
      requires Valid() && Readable(l, kinds, d)
      requires forall y | Refers(l, kinds, d, y) :: y in ordered
      modifies this
      ensures Valid()
      ensures ordered == if d in old(ordered) then old(ordered) else old(ordered) + [d]
    {
      if d !in seen {
        AppendKeepsOrder(l, kinds, ordered, d);
        seen := seen + {d};
        ordered := ordered + [d];
      }
    }

    /** A layer or config of the manifest `x`. */
    method AddLeaf(ghost x: Digest, y: Digest)
      requires Valid() && Typed(l, kinds) && IsManifest(kinds(x)) && Refers(l, kinds, x, y)
      modifies this
      ensures Valid() && y in ordered && Extends(l, kinds, old(ordered), ordered, x)
    {
      LeafRefersToNothing(l, kinds, x, y);
      AppendExtends(l, kinds, ordered, x, y);
      Add(y);
    }

    method AddLeaves(x: Digest, m: Manifest)
      requires Valid() && Typed(l, kinds) && IsManifest(kinds(x)) && !IsIndex(kinds(x)) && l.manifest(x) == Some(m)
      modifies this
      ensures Valid() && Extends(l, kinds, old(ordered), ordered, x)
      ensures forall y | Refers(l, kinds, x, y) :: y in ordered
    {
      for i := 0 to |m.layers|
        invariant Valid() && Extends(l, kinds, old(ordered), ordered, x)
        invariant forall k | 0 <= k < i :: m.layers[k].digest in ordered
      {
        AddLeaf(x, m.layers[i].digest);
      }
      AddLeaf(x, m.config.digest);
    }

    method WalkChildren(x: Digest, children: seq<Descriptor>, ghost rank: Digest -> nat) returns (ok: bool)
      requires Valid() && Typed(l, kinds) && Acyclic(l, kinds, rank)
      requires IsIndex(kinds(x)) && l.index(x) == Some(children)
      modifies this
      ensures Valid() && Extends(l, kinds, old(ordered), ordered, x)
      ensures ok ==> forall y | Refers(l, kinds, x, y) :: y in ordered
      ensures !ok ==> Broken(l, kinds, x)
      decreases rank(x), 0
    {
      for i := 0 to |children|
        invariant Valid() && Extends(l, kinds, old(ordered), ordered, x)
        invariant forall k | 0 <= k < i :: children[k].digest in ordered
      {
        ghost var before := ordered;
        assert Refers(l, kinds, x, children[i].digest);
        ok := WalkBlobs(children[i], rank);
        ExtendsVia(l, kinds, old(ordered), before, ordered, x, children[i].digest);
        if !ok {
          BrokenVia(l, kinds, x, children[i].digest);
          return;
        }
      }
      ok := true;
    }

    /** Everything `desc` refers to, with its descendants. */
    method WalkReferred(desc: Descriptor, ghost rank: Digest -> nat) returns (ok: bool)
      requires Valid() && Typed(l, kinds) && Acyclic(l, kinds, rank)
      requires desc.mediaType == kinds(desc.digest)
      modifies this
      ensures Valid() && Extends(l, kinds, old(ordered), ordered, desc.digest)
      ensures ok ==> Readable(l, kinds, desc.digest) && forall y | Refers(l, kinds, desc.digest, y) :: y in ordered
      ensures !ok ==> Broken(l, kinds, desc.digest)
      decreases rank(desc.digest), 1
    {
      ReachesSelf(l, kinds, desc.digest);
      if IsIndex(desc.mediaType) {
        var children := l.index(desc.digest);
        if children.None? {
          return false;
        }
        ok := WalkChildren(desc.digest, children.value, rank);
        return;
      }
      if IsManifest(desc.mediaType) {
        var m := l.manifest(desc.digest);
        if m.None? {
          return false;
        }
        AddLeaves(desc.digest, m.value);
      }
      ok := true;
    }

    /** Adds `desc` and all its descendants, children before parents; false when a document is unreadable. */
    method WalkBlobs(desc: Descriptor, ghost rank: Digest -> nat) returns (ok: bool)
      requires Valid() && Typed(l, kinds) && Acyclic(l, kinds, rank)
      requires desc.mediaType == kinds(desc.digest)
      modifies this
      ensures Valid() && Extends(l, kinds, old(ordered), ordered, desc.digest)
      ensures old(seen) <= seen && (ok ==> desc.digest in seen)
      ensures !ok ==> Broken(l, kinds, desc.digest)
      decreases rank(desc.digest), 2
    {
      ok := WalkReferred(desc, rank);
      if ok {
        ReachesSelf(l, kinds, desc.digest);
        Add(desc.digest);
      }
    }

    /** What is recorded is closed under references, so it holds everything its members reach. */
    lemma HoldsReached(x: Digest, y: Digest)
      requires Valid() && x in ordered && Reaches(l, kinds, x, y)
      ensures y in ordered
    {
      var path :| IsPath(l, kinds, path) && path[0] == x && path[|path| - 1] == y;
      var s := set d | d in ordered;
      forall a, b | a in s && Refers(l, kinds, a, b) ensures b in s {
        var i :| 0 <= i < |ordered| && ordered[i] == a;
        assert Before(ordered, i, b);
      }
      ClosedHoldsPath(l, kinds, s, path);
    }

    /** `r` is any set that holds all the roots reach. */
    method WalkRoots(roots: seq<Descriptor>, ghost rank: Digest -> nat, ghost r: iset<Digest>) returns (ok: bool)
      requires Valid() && ordered == [] && Typed(l, kinds) && Acyclic(l, kinds, rank) && Agree(kinds, roots)
      requires forall i, y | 0 <= i < |roots| && Reaches(l, kinds, roots[i].digest, y) :: y in r
      modifies this
      ensures Valid() && forall d | d in ordered :: d in r
      ensures ok ==> forall i | 0 <= i < |roots| :: roots[i].digest in ordered
      ensures !ok ==> SomeBroken(l, kinds, roots)
    {
      for i := 0 to |roots|
        invariant Valid() && forall d | d in ordered :: d in r
        invariant forall k | 0 <= k < i :: roots[k].digest in ordered
      {
        ghost var before := ordered;
        ok := WalkBlobs(roots[i], rank);
        StaysWithin(l, kinds, before, ordered, roots[i].digest, r);
        if !ok {
          return;
        }
      }
      ok := true;
    }

    lemma RecordedIsReadable(x: Digest)
      requires Valid() && x in ordered
      ensures !Broken(l, kinds, x)
    {
      forall y | Reaches(l, kinds, x, y) ensures Readable(l, kinds, y) {
        HoldsReached(x, y);
      }
    }

    /**
     * The blob list for several roots: no duplicates, exactly what the roots reach, and every blob after
     * all blobs it refers to. It fails exactly when some document reached is unreadable.
     */
    method BlobsFrom(roots: seq<Descriptor>, ghost rank: Digest -> nat) returns (ok: bool)
      requires Valid() && ordered == [] && Typed(l, kinds) && Acyclic(l, kinds, rank) && Agree(kinds, roots)
      modifies this
      ensures ok ==> NoDuplicates(ordered) && ReferencesFirst(l, kinds, ordered)
      ensures ok ==> forall y :: y in ordered <==> ReachedFrom(l, kinds, roots, y)
      ensures !ok <==> SomeBroken(l, kinds, roots)
    {
      ok := WalkRoots(roots, rank, iset y | ReachedFrom(l, kinds, roots, y));
      if ok {
        forall i | 0 <= i < |roots| ensures !Broken(l, kinds, roots[i].digest) {
          RecordedIsReadable(roots[i].digest);
        }
        forall y | ReachedFrom(l, kinds, roots, y) ensures y in ordered {
          var i :| 0 <= i < |roots| && Reaches(l, kinds, roots[i].digest, y);
          HoldsReached(roots[i].digest, y);
        }
      }
    }
  }

  // ---------------------------------------------------------------------------------------------
  // Known descriptors and nested search: references through indexes only

  ghost predicate Contains(l: Layout, kinds: Kinds, x: Digest, y: Digest) {
    IsIndex(kinds(x)) && Refers(l, kinds, x, y)
  }

  ghost predicate IsIndexPath(l: Layout, kinds: Kinds, path: seq<Digest>) {
    path != [] && forall i | 0 <= i < |path| - 1 :: Contains(l, kinds, path[i], path[i + 1])
  }

  /** `y` is named by one of `descs` or inside an index nested in them. */
  ghost predicate Nested(l: Layout, kinds: Kinds, descs: seq<Descriptor>, y: Digest) {
    exists path, i :: NestedBy(l, kinds, descs, y, path, i)
  }

  ghost predicate NestedBy(l: Layout, kinds: Kinds, descs: seq<Descriptor>, y: Digest, path: seq<Digest>, i: int) {
    0 <= i < |descs| && IsIndexPath(l, kinds, path) && path[0] == descs[i].digest && path[|path| - 1] == y
  }

  lemma NestedHere(l: Layout, kinds: Kinds, descs: seq<Descriptor>, i: int)
    requires 0 <= i < |descs|
    ensures Nested(l, kinds, descs, descs[i].digest)
  {
    assert NestedBy(l, kinds, descs, descs[i].digest, [descs[i].digest], i);
  }

  lemma NestedDeeper(l: Layout, kinds: Kinds, descs: seq<Descriptor>, i: int, y: Digest)
    requires 0 <= i < |descs| && IsIndex(kinds(descs[i].digest)) && l.index(descs[i].digest).Some?
    requires Nested(l, kinds, l.index(descs[i].digest).value, y)
    ensures Nested(l, kinds, descs, y)
  {
    var children := l.index(descs[i].digest).value;
    var path, k :| NestedBy(l, kinds, children, y, path, k);
    var longer := [descs[i].digest] + path;
    assert Contains(l, kinds, descs[i].digest, path[0]);
    assert NestedBy(l, kinds, descs, y, longer, i);
  }

  lemma {:induction false} ClosedHoldsNested(l: Layout, kinds: Kinds, s: set<Digest>, path: seq<Digest>)
    requires IsIndexPath(l, kinds, path) && path[0] in s
    requires forall x, y | x in s && Contains(l, kinds, x, y) :: y in s
    ensures path[|path| - 1] in s
    decreases |path|
  {
    if |path| > 1 {
      ClosedHoldsNested(l, kinds, s, path[1..]);
    }
  }

  /** A finite layout: `all` holds every digest the roots and the indexes name. */
  ghost predicate Finite(l: Layout, all: set<Digest>, descs: seq<Descriptor>) {
    && (forall i | 0 <= i < |descs| :: descs[i].digest in all)
    && (forall x, i | l.index(x).Some? && 0 <= i < |l.index(x).value| :: l.index(x).value[i].digest in all)
  }

  class Collector {
    const l: Layout
    ghost const kinds: Kinds
    var known: map<Digest, Descriptor>

    constructor (l: Layout, ghost kinds: Kinds)
      ensures this.l == l && this.kinds == kinds && known == map[]
    {
      this.l := l;
      this.kinds := kinds;
      known := map[];
    }

    ghost predicate Truthful()
      reads this
    {
      forall d | d in known :: known[d].digest == d && known[d].mediaType == kinds(d)
    }

    ghost predicate Grown(before: map<Digest, Descriptor>)
      reads this
    {
      Truthful() && forall d | d in before :: d in known && known[d] == before[d]
    }

    /** The children of everything recorded since `before` are known. */
    ghost predicate ClosedSince(before: map<Digest, Descriptor>)
      reads this
    {
      forall x, y | x in known && x !in before && Contains(l, kinds, x, y) :: y in known
    }

    /**
     * Records `descs` and every descriptor of the indexes reached from them. It ends on every finite
     * layout, cycles included.
     */
    method Collect(descs: seq<Descriptor>, ghost all: set<Digest>) returns (ok: bool)
      requires IndexesAgree(l, kinds) && Agree(kinds, descs) && Finite(l, all, descs)
      requires known.Keys <= all && Truthful()
      modifies this
      ensures known.Keys <= all && Grown(old(known))
      ensures forall d | d in known && d !in old(known) :: Nested(l, kinds, descs, d)
      ensures ok ==> (forall i | 0 <= i < |descs| :: descs[i].digest in known) && ClosedSince(old(known))
      ensures !ok ==> exists x :: Nested(l, kinds, descs, x) && !Readable(l, kinds, x)
      decreases all - known.Keys, 1
    {
      for i := 0 to |descs|
        invariant known.Keys <= all && Grown(old(known)) && ClosedSince(old(known))
        invariant forall d | d in known && d !in old(known) :: Nested(l, kinds, descs, d)
        invariant forall k | 0 <= k < i :: descs[k].digest in known
      {
        if descs[i].digest in known {
          continue;
        }
        ok := CollectOne(descs, i, all);
        if !ok {
          return;
        }
      }
      ok := true;
    }

    /** One new descriptor and, when it is an index, what is nested in it. */
    method CollectOne(descs: seq<Descriptor>, i: nat, ghost all: set<Digest>) returns (ok: bool)
      requires IndexesAgree(l, kinds) && Agree(kinds, descs) && Finite(l, all, descs)
      requires known.Keys <= all && Truthful() && i < |descs| && descs[i].digest !in known
      modifies this
      ensures known.Keys <= all && Grown(old(known)) && descs[i].digest in known
      ensures forall d | d in known && d !in old(known) :: Nested(l, kinds, descs, d)
      ensures ok ==> ClosedSince(old(known))
      ensures !ok ==> exists x :: Nested(l, kinds, descs, x) && !Readable(l, kinds, x)
      decreases all - known.Keys, 0
    {
      var desc := descs[i];
      NestedHere(l, kinds, descs, i);
      known := known[desc.digest := desc];
      assert desc.digest in all - old(known.Keys);
      if !IsIndex(desc.mediaType) {
        return true;
      }
      var children := l.index(desc.digest);
      if children.None? {
        return false;
      }
      ok := Collect(children.value, all);
      forall d | Nested(l, kinds, children.value, d) ensures Nested(l, kinds, descs, d) {
        NestedDeeper(l, kinds, descs, i, d);
      }
    }

    /** Started empty, it knows exactly the digests nested in the roots. */
    method CollectAll(descs: seq<Descriptor>, ghost all: set<Digest>) returns (ok: bool)
      requires known == map[] && IndexesAgree(l, kinds) && Agree(kinds, descs) && Finite(l, all, descs)
      modifies this
      ensures Truthful() && (ok ==> forall y :: y in known <==> Nested(l, kinds, descs, y))
      ensures (forall x | Nested(l, kinds, descs, x) :: Readable(l, kinds, x)) ==> ok
    {
      ok := Collect(descs, all);
      if ok {
        forall y | Nested(l, kinds, descs, y) ensures y in known {
          var path, i :| NestedBy(l, kinds, descs, y, path, i);
          ClosedHoldsNested(l, kinds, known.Keys, path);
        }
      }
    }
  }

  // ---------------------------------------------------------------------------------------------

  datatype Search = Found(desc: Descriptor) | NotFound | ReadFailed

  /** transfer's depth-first search for a digest; it keeps no visited set. */
  function Find(
      l: Layout, ghost kinds: Kinds, descs: seq<Descriptor>, target: Digest, ghost rank: Digest -> nat,
      ghost bound: nat): Search
    requires IndexesAgree(l, kinds) && Acyclic(l, kinds, rank) && Agree(kinds, descs)
    requires forall i | 0 <= i < |descs| :: rank(descs[i].digest) < bound
    decreases bound, |descs|
  {
    if descs == [] then NotFound
    else
      var d, rest := descs[0], descs[1..];
      if d.digest == target then Found(d)
      else if !IsIndex(d.mediaType) then Find(l, kinds, rest, target, rank, bound)
      else
        match l.index(d.digest)
        case None => ReadFailed
        case Some(children) =>
          assert forall i | 0 <= i < |children| :: Refers(l, kinds, d.digest, children[i].digest);
          var inner := Find(l, kinds, children, target, rank, rank(d.digest));
          if inner.Found? then inner else Find(l, kinds, rest, target, rank, bound)
  }

  /** What is found has the digest asked for and is nested in the roots. */
  lemma {:induction false} FindIsSound(
      l: Layout, kinds: Kinds, descs: seq<Descriptor>, target: Digest, rank: Digest -> nat, bound: nat)
    requires IndexesAgree(l, kinds) && Acyclic(l, kinds, rank) && Agree(kinds, descs)
    requires forall i | 0 <= i < |descs| :: rank(descs[i].digest) < bound
    requires Find(l, kinds, descs, target, rank, bound).Found?
    ensures Find(l, kinds, descs, target, rank, bound).desc.digest == target
    ensures Nested(l, kinds, descs, target)
    decreases bound, |descs|
  {
    var d, rest := descs[0], descs[1..];
    if d.digest == target {
      NestedHere(l, kinds, descs, 0);
    } else if IsIndex(d.mediaType) {
      var children := l.index(d.digest).value;
      assert forall i | 0 <= i < |children| :: Refers(l, kinds, d.digest, children[i].digest);
      if Find(l, kinds, children, target, rank, rank(d.digest)).Found? {
        FindIsSound(l, kinds, children, target, rank, rank(d.digest));
        NestedDeeper(l, kinds, descs, 0, target);
      } else {
        FindIsSound(l, kinds, rest, target, rank, bound);
        NestedInRest(l, kinds, descs, target);
      }
    } else {
      FindIsSound(l, kinds, rest, target, rank, bound);
      NestedInRest(l, kinds, descs, target);
    }
  }

  lemma NestedInRest(l: Layout, kinds: Kinds, descs: seq<Descriptor>, y: Digest)
    requires descs != [] && Nested(l, kinds, descs[1..], y)
    ensures Nested(l, kinds, descs, y)
  {
    var path, i :| NestedBy(l, kinds, descs[1..], y, path, i);
    assert NestedBy(l, kinds, descs, y, path, i + 1);
  }

  /** On a readable layout everything nested in the roots is found. */
  lemma {:induction false} FindIsComplete(
      l: Layout, kinds: Kinds, descs: seq<Descriptor>, target: Digest, rank: Digest -> nat, bound: nat)
    requires IndexesAgree(l, kinds) && Acyclic(l, kinds, rank) && Agree(kinds, descs)
    requires forall i | 0 <= i < |descs| :: rank(descs[i].digest) < bound
    requires forall x | Nested(l, kinds, descs, x) :: Readable(l, kinds, x)
    requires Nested(l, kinds, descs, target)
    ensures Find(l, kinds, descs, target, rank, bound).Found?
    decreases bound, |descs|
  {
    var path, i :| NestedBy(l, kinds, descs, target, path, i);
    var d, rest := descs[0], descs[1..];
    NestedHere(l, kinds, descs, 0);
    if d.digest != target {
      forall x | Nested(l, kinds, rest, x) ensures Readable(l, kinds, x) {
        NestedInRest(l, kinds, descs, x);
      }
      if i > 0 {
        assert NestedBy(l, kinds, rest, target, path, i - 1);
        FindIsComplete(l, kinds, rest, target, rank, bound);
      } else {
        assert |path| > 1 && Contains(l, kinds, path[0], path[1]);
        var children := l.index(d.digest).value;
        var k :| 0 <= k < |children| && children[k].digest == path[1];
        assert NestedBy(l, kinds, children, target, path[1..], k);
        forall x | Nested(l, kinds, children, x) ensures Readable(l, kinds, x) {
          NestedDeeper(l, kinds, descs, 0, x);
        }
        assert forall i | 0 <= i < |children| :: Refers(l, kinds, d.digest, children[i].digest);
        FindIsComplete(l, kinds, children, target, rank, rank(d.digest));
      }
    }
  }

  /** On a readable acyclic layout find succeeds for exactly the digests nested in the roots. */
  lemma FindIffNested(l: Layout, kinds: Kinds, descs: seq<Descriptor>, target: Digest, rank: Digest -> nat, bound: nat)
    requires IndexesAgree(l, kinds) && Acyclic(l, kinds, rank) && Agree(kinds, descs)
    requires forall i | 0 <= i < |descs| :: rank(descs[i].digest) < bound
    requires forall x | Nested(l, kinds, descs, x) :: Readable(l, kinds, x)
    ensures Find(l, kinds, descs, target, rank, bound).Found? <==> Nested(l, kinds, descs, target)
  {
    if Nested(l, kinds, descs, target) {
      FindIsComplete(l, kinds, descs, target, rank, bound);
    }
    if Find(l, kinds, descs, target, rank, bound).Found? {
      FindIsSound(l, kinds, descs, target, rank, bound);
    }
  }

  /** The two searches agree: what collectDescriptors knows is exactly what find succeeds for. */
  method FindAgreesWithCollect(l: Layout, ghost kinds: Kinds, descs: seq<Descriptor>,
      ghost rank: Digest -> nat, ghost bound: nat, ghost all: set<Digest>)
    returns (known: map<Digest, Descriptor>)
    requires IndexesAgree(l, kinds) && Acyclic(l, kinds, rank) && Agree(kinds, descs) && Finite(l, all, descs)
    requires forall i | 0 <= i < |descs| :: rank(descs[i].digest) < bound
    requires forall x | Nested(l, kinds, descs, x) :: Readable(l, kinds, x)
    ensures forall y :: y in known <==> Nested(l, kinds, descs, y)
    ensures forall y :: y in known <==> Find(l, kinds, descs, y, rank, bound).Found?
    ensures forall y | y in known :: known[y].digest == y && known[y].mediaType == kinds(y)
  {
    var c := new Collector(l, kinds);
    var ok := c.CollectAll(descs, all);
    known := c.known;
    forall y ensures y in known <==> Find(l, kinds, descs, y, rank, bound).Found? {
      FindIffNested(l, kinds, descs, y, rank, bound);
    }
  }
}
