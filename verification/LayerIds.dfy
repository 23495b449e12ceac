/** Layer IDs of containers-storage, derived from the diffIDs below and including a layer. */
module LayerIds {
  import opened Content
  import opened ImageModel

  /** The encoded canonical digest of a text. */
  type TextHash = string -> string

  /** No two texts share a digest, and none has the empty one. */
  ghost predicate TextCollisionFree(h: TextHash) {
    (forall a, b :: h(a) == h(b) ==> a == b) && forall a :: h(a) != ""
  }

  /** The text hashed for a layer: the ID below it, a plus sign, its own encoded diffID. */
  function Link(below: string, d: Digest): string {
    below + "+" + d.encoded
  }

  /** The ID of the topmost layer of `ds`. */
  function ChainId(h: TextHash, ds: seq<Digest>): string
    requires ds != []
  {
    if |ds| == 1 then ds[0].encoded else h(Link(ChainId(h, ds[..|ds| - 1]), ds[|ds| - 1]))
  }

  function ChainIds(h: TextHash, ds: seq<Digest>): seq<string> {
    seq(|ds|, i requires 0 <= i < |ds| => ChainId(h, ds[..i + 1]))
  }

  /** The first diffID as it is, then each hashed behind the ID below it and a plus sign. */
  lemma ChainIdsGrow(h: TextHash, ds: seq<Digest>)
    ensures |ChainIds(h, ds)| == |ds| && (ds != [] ==> ChainIds(h, ds)[0] == ds[0].encoded)
    ensures forall i | 0 < i < |ds| :: ChainIds(h, ds)[i] == h(ChainIds(h, ds)[i - 1] + "+" + ds[i].encoded)
  {
    forall i | 0 < i < |ds| ensures ChainIds(h, ds)[i] == h(ChainIds(h, ds)[i - 1] + "+" + ds[i].encoded) {
      assert ds[..i + 1][..i] == ds[..i];
    }
  }

  method ComputeChainIds(h: TextHash, ds: seq<Digest>) returns (ids: array<string>)
    ensures fresh(ids) && ids[..] == ChainIds(h, ds)
  {
    ids := new string[|ds|](_ => "");
    for i := 0 to |ds|
      invariant forall k | 0 <= k < i :: ids[k] == ChainId(h, ds[..k + 1])
    {
      if i == 0 {
        ids[i] := ds[i].encoded;
        continue;
      }
      assert ds[..i + 1][..i] == ds[..i];
      ids[i] := h(ids[i - 1] + "+" + ds[i].encoded);
    }
  }

  predicate AllValid(ds: seq<Digest>) {
    forall i | 0 <= i < |ds| :: ValidDigest(ds[i])
  }

  /** No text with a plus sign hashes to this digest's hex. */
  ghost predicate NoLink(h: TextHash, d: Digest) {
    forall below, e :: h(Link(below, e)) != d.encoded
  }

  /** The plus sign splits the text back: encoded digests contain none. */
  lemma {:induction false} LinkInjective(a: string, x: Digest, b: string, y: Digest)
    requires ValidDigest(x) && ValidDigest(y) && Link(a, x) == Link(b, y)
    ensures a == b && x == y
  {
    var t := Link(a, x);
    assert |x.encoded| == |y.encoded|;
    assert t[..|a|] == a && t[..|b|] == b;
    assert t[|a| + 1..] == x.encoded && t[|b| + 1..] == y.encoded;
  }

  /** `es` is `ds` with its first layer replaced by a stack whose ID is that layer's encoded diffID. */
  ghost predicate StackedBy(h: TextHash, ds: seq<Digest>, es: seq<Digest>, stack: seq<Digest>)
    requires ds != []
  {
    stack != [] && es == stack + ds[1..] && ChainId(h, stack) == ds[0].encoded
  }

  ghost predicate StacksOn(h: TextHash, ds: seq<Digest>, es: seq<Digest>)
    requires ds != []
  {
    exists stack :: StackedBy(h, ds, es, stack)
  }

  /** Stacks of one ID below the same layers give the same ID. */
  lemma {:induction false} StackedIdsEqual(h: TextHash, ds: seq<Digest>, es: seq<Digest>, stack: seq<Digest>)
    requires ds != [] && StackedBy(h, ds, es, stack)
    ensures es != [] && ChainId(h, ds) == ChainId(h, es)
    decreases |ds|
  {
    if |ds| == 1 {
      assert es == stack;
    } else {
      var ds', x := ds[..|ds| - 1], ds[|ds| - 1];
      assert ds[1..] == ds'[1..] + [x];
      var es' := stack + ds'[1..];
      assert es == es' + [x] && es[..|es| - 1] == es';
      StackedIdsEqual(h, ds', es', stack);
    }
  }

  lemma {:induction false} EqualIdsStack(h: TextHash, ds: seq<Digest>, es: seq<Digest>) returns (stack: seq<Digest>)
    requires TextCollisionFree(h) && ds != [] && |ds| <= |es| && AllValid(ds) && AllValid(es)
    requires ChainId(h, ds) == ChainId(h, es)
    ensures StackedBy(h, ds, es, stack)
    decreases |ds|
  {
    if |ds| == 1 {
      stack := es;
    } else {
      var ds', x := ds[..|ds| - 1], ds[|ds| - 1];
      var es', y := es[..|es| - 1], es[|es| - 1];
      LinkInjective(ChainId(h, ds'), x, ChainId(h, es'), y);
      stack := EqualIdsStack(h, ds', es');
      assert ds[1..] == ds'[1..] + [x] && es == es' + [x];
    }
  }

  /**
   * Under a collision-free hash two images have one top ID exactly when they are one, or one is the
   * other with its first layer replaced by a stack whose ID is that layer's diffID.
   */
  lemma ChainIdsEqualIff(h: TextHash, ds: seq<Digest>, es: seq<Digest>)
    requires TextCollisionFree(h) && ds != [] && es != [] && AllValid(ds) && AllValid(es)
    ensures ChainId(h, ds) == ChainId(h, es) <==> ds == es || StacksOn(h, ds, es) || StacksOn(h, es, ds)
  {
    if ChainId(h, ds) == ChainId(h, es) {
      if |ds| <= |es| {
        var stack := EqualIdsStack(h, ds, es);
      } else {
        var stack := EqualIdsStack(h, es, ds);
      }
    }
    if StacksOn(h, ds, es) {
      var stack :| StackedBy(h, ds, es, stack);
      StackedIdsEqual(h, ds, es, stack);
    }
    if StacksOn(h, es, ds) {
      var stack :| StackedBy(h, es, ds, stack);
      StackedIdsEqual(h, es, ds, stack);
    }
  }

  lemma StackIsLinked(h: TextHash, stack: seq<Digest>)
    requires |stack| > 1
    ensures exists below, e :: h(Link(below, e)) == ChainId(h, stack)
  {
    var k := |stack| - 1;
    assert h(Link(ChainId(h, stack[..k]), stack[k])) == ChainId(h, stack);
  }

  /** A stack on a layer that no text with a plus sign hashes to is that layer. */
  lemma NoLinkNoStack(h: TextHash, ds: seq<Digest>, es: seq<Digest>)
    requires ds != [] && StacksOn(h, ds, es) && NoLink(h, ds[0]) && AllValid(ds) && AllValid(es)
    ensures ds == es
  {
    var stack :| StackedBy(h, ds, es, stack);
    if |stack| > 1 {
      StackIsLinked(h, stack);
    }
    assert es[0] == stack[0] && stack == [es[0]] && ds == [ds[0]] + ds[1..];
  }

  /** So top IDs are injective on images whose first diffIDs no such text hashes to. */
  lemma ChainIdInjective(h: TextHash, ds: seq<Digest>, es: seq<Digest>)
    requires TextCollisionFree(h) && ds != [] && es != [] && AllValid(ds) && AllValid(es)
    requires NoLink(h, ds[0]) && NoLink(h, es[0])
    requires ChainId(h, ds) == ChainId(h, es)
    ensures ds == es
  {
    ChainIdsEqualIff(h, ds, es);
    if StacksOn(h, ds, es) {
      NoLinkNoStack(h, ds, es);
    } else if StacksOn(h, es, ds) {
      NoLinkNoStack(h, es, ds);
    }
  }

  /** Without that hypothesis on first diffIDs, a one-layer and a two-layer image share their top ID. */
  lemma ChainIdClash(h: TextHash, first: Digest, x: Digest, y: Digest)
    requires first.encoded == h(Link(x.encoded, y))
    ensures ChainId(h, [first]) == ChainId(h, [x, y]) && [first] != [x, y]
  {
    assert [x, y][..1] == [x];
  }
}
