/** The names of store entries: how a leaf's directory is printed and parsed. */
module LeafPath {
  import opened Content
  import opened ImageModel
  import opened Paths
  import opened StoreProtocol

  const TAG_MARKER := "_tag"
  const DIGEST_MARKER := "_digest"

  function PlatformString(p: Platform): string {
    p.os + "/" + p.arch + (if p.variant == "" then "" else "/" + p.variant)
  }

  function ParsePlatform(s: string): Option<Platform> {
    var parts := Split(s);
    if |parts| < 2 || |parts| > 3 || "" in parts then None
    else Some(Platform(parts[0], parts[1], if |parts| == 3 then parts[2] else ""))
  }

  function RefKey(ref: Reference): string {
    if ref.digest.Some? then Join([DIGEST_MARKER, ref.digest.value.alg, ref.digest.value.encoded])
    else Join([TAG_MARKER, ref.tag])
  }

  function LeafPath(ref: Reference, p: Platform): string {
    Join(["image_refs", ref.repository, RefKey(ref), PlatformString(p)])
  }

  /** strings.CutPrefix. */
  function CutPrefix(s: string, prefix: string): Option<string> {
    if prefix <= s then Some(s[|prefix|..]) else None
  }

  function MarkerIndex(segs: seq<string>): (i: nat)
    ensures i <= |segs| && (i < |segs| ==> segs[i] == TAG_MARKER || segs[i] == DIGEST_MARKER)
    ensures forall k | 0 <= k < i :: segs[k] != TAG_MARKER && segs[k] != DIGEST_MARKER
  {
    if segs == [] || segs[0] == TAG_MARKER || segs[0] == DIGEST_MARKER then 0 else 1 + MarkerIndex(segs[1..])
  }

  function ParseSegs(segs: seq<string>): Option<(Reference, Platform)> {
    var i := MarkerIndex(segs);
    if i < 1 || i == |segs| then None
    else
      var repository := JoinParts(segs[..i]);
      if segs[i] == TAG_MARKER then
        if |segs| < i + 2 then None
        else
          match ParsePlatform(JoinParts(segs[i + 2..]))
          case None => None
          case Some(p) => Some((Reference(repository, segs[i + 1], None), p))
      else if |segs| < i + 3 || !ValidDigest(Digest(segs[i + 1], segs[i + 2])) then None
      else
        match ParsePlatform(JoinParts(segs[i + 3..]))
        case None => None
        case Some(p) => Some((Reference(repository, "", Some(Digest(segs[i + 1], segs[i + 2]))), p))
  }

  function ParseLeaf(leaf: string): Option<(Reference, Platform)> {
    match CutPrefix(leaf, "image_refs/")
    case None => None
    case Some(rest) => ParseSegs(Split(rest))
  }

  // ---------------------------------------------------------------------------------------------
  // Well-formed references and platforms

  /** Repository components start with a letter, a digit or a bracket. */
  predicate RepoComponent(s: string) {
    s != "" && s[0] != '_' && s[0] != '.'
  }

  predicate WellFormedRef(ref: Reference) {
    && (forall i | 0 <= i < |Split(ref.repository)| :: RepoComponent(Split(ref.repository)[i]))
    && (if ref.digest.Some? then ValidDigest(ref.digest.value)
        else NoSlash(ref.tag) && ref.tag != "" && ref.tag[0] != '.')
  }

  /** Operating system and architecture are given, and no component has a slash. */
  predicate Accepted(p: Platform) {
    p.os != "" && NoSlash(p.os) && p.arch != "" && NoSlash(p.arch) && NoSlash(p.variant)
  }

  predicate IsDots(s: string) {
    s == "." || s == ".."
  }

  predicate NoDots(p: Platform) {
    !IsDots(p.os) && !IsDots(p.arch) && !IsDots(p.variant)
  }

  /** A reference with a digest is known by its digest alone. */
  function Canonical(ref: Reference): Reference {
    if ref.digest.Some? then ref.(tag := "") else ref
  }

  function PlatformParts(p: Platform): seq<string> {
    [p.os, p.arch] + (if p.variant == "" then [] else [p.variant])
  }

  function KeyParts(ref: Reference): seq<string> {
    if ref.digest.Some? then [DIGEST_MARKER, ref.digest.value.alg, ref.digest.value.encoded] else [TAG_MARKER, ref.tag]
  }

  function HeadParts(ref: Reference): seq<string> {
    Split(ref.repository) + KeyParts(ref)
  }

  lemma AcceptedParts(p: Platform)
    requires Accepted(p)
    ensures PlatformString(p) == JoinParts(PlatformParts(p)) && Split(PlatformString(p)) == PlatformParts(p)
    ensures forall i | 0 <= i < |PlatformParts(p)| :: PlatformParts(p)[i] != "" && NoSlash(PlatformParts(p)[i])
  {
    var parts := PlatformParts(p);
    JoinTwo(p.os, p.arch);
    JoinThree(p.os, p.arch, p.variant);
    if p.variant == "" {
      assert parts == [p.os, p.arch] && PlatformString(p) == p.os + "/" + p.arch;
    } else {
      assert parts == [p.os, p.arch, p.variant] && PlatformString(p) == p.os + "/" + p.arch + "/" + p.variant;
    }
    SplitJoin(parts);
  }

  /**
   * On all strings: ParsePlatform gives a platform exactly when the string is os/arch or
   * os/arch/variant with components that are not empty and have no slash, and then those components.
   */
  lemma ParsePlatformIff(s: string, p: Platform)
    ensures ParsePlatform(s) == Some(p) <==>
      Accepted(p) && s == p.os + "/" + p.arch + (if p.variant == "" then "" else "/" + p.variant)
  {
    var text := p.os + "/" + p.arch + (if p.variant == "" then "" else "/" + p.variant);
    if Accepted(p) && s == text {
      AcceptedParts(p);
    }
    if ParsePlatform(s) == Some(p) {
      var parts := Split(s);
      JoinSplit(s);
      assert parts == PlatformParts(p);
      AcceptedParts(p);
    }
  }

  /** The platforms that have a string ParsePlatform takes back are exactly those described. */
  lemma AcceptedIff(p: Platform)
    ensures ParsePlatform(PlatformString(p)) == Some(p) <==> Accepted(p)
  {
    ParsePlatformIff(PlatformString(p), p);
  }

  lemma HexHasNoSlash(s: string)
    requires IsLowerHex(s)
    ensures NoSlash(s)
  {
  }

  lemma KeyIsPlain(ref: Reference)
    requires WellFormedRef(ref)
    ensures AllPlain(KeyParts(ref)) && RefKey(ref) == JoinParts(KeyParts(ref)) && RefKey(ref) != ""
    ensures Split(RefKey(ref)) == KeyParts(ref)
  {
    var parts := KeyParts(ref);
    if ref.digest.Some? {
      HexHasNoSlash(ref.digest.value.encoded);
    }
    NoneEmpty(parts);
    SplitJoin(parts);
    CleanKeepsPlain([], parts);
    assert [] + parts == parts;
  }

  lemma HeadIsPlain(ref: Reference)
    requires WellFormedRef(ref)
    ensures AllPlain(["image_refs"] + HeadParts(ref)) && ref.repository != ""
  {
    KeyIsPlain(ref);
    var repo := Split(ref.repository);
    assert RepoComponent(repo[0]);
    forall i | 0 <= i < |repo| ensures Plain(repo[i]) {
      assert RepoComponent(repo[i]);
    }
  }

  /** path.Join of the four elements cleans all their parts: those of the head stay. */
  lemma LeafIsCleaned(ref: Reference, p: Platform)
    requires WellFormedRef(ref) && Accepted(p)
    ensures var elems := ["image_refs", ref.repository, RefKey(ref), PlatformString(p)];
      LeafPath(ref, p) == Clean(JoinParts(elems))
  {
    HeadIsPlain(ref);
    KeyIsPlain(ref);
    var elems := ["image_refs", ref.repository, RefKey(ref), PlatformString(p)];
    NoneEmpty(elems);
  }

  lemma KeptParts(head: seq<string>, parts: seq<string>)
    requires AllPlain(head) && |parts| < |head| && forall i | 0 <= i < |parts| :: NoSlash(parts[i])
    ensures CleanFrom([], head + parts) == CleanFrom(head, parts) && CleanFrom(head, parts) != []
    ensures AllPlain(CleanFrom(head, parts)) && Split(JoinParts(CleanFrom(head, parts))) == CleanFrom(head, parts)
  {
    CleanFromConcat([], head, parts);
    CleanKeepsPlain([], head);
    assert [] + head == head;
    CleanStaysPlain(head, parts);
    SplitJoin(CleanFrom(head, parts));
  }

  /** The parts path.Join cleans, and what is left of them. */
  lemma LeafParts(ref: Reference, p: Platform)
    requires WellFormedRef(ref) && Accepted(p)
    ensures var kept := CleanFrom(["image_refs"] + HeadParts(ref), PlatformParts(p));
      && AllPlain(kept) && kept != []
      && LeafPath(ref, p) == JoinParts(kept) && Split(LeafPath(ref, p)) == kept
  {
    assert AllPlain(["image_refs"] + HeadParts(ref)) by {
      HeadIsPlain(ref);
    }
    AcceptedParts(p);
    LeafIsCleaned(ref, p);
    ElemsSplit(ref, p);
    KeptParts(["image_refs"] + HeadParts(ref), PlatformParts(p));
  }

  lemma DotlessParts(ref: Reference, p: Platform)
    requires WellFormedRef(ref) && Accepted(p) && NoDots(p)
    ensures CleanFrom(["image_refs"] + HeadParts(ref), PlatformParts(p))
         == ["image_refs"] + HeadParts(ref) + PlatformParts(p)
  {
    AcceptedParts(p);
    CleanKeepsPlain(["image_refs"] + HeadParts(ref), PlatformParts(p));
  }

  lemma ElemsJoined(ref: Reference, p: Platform)
    ensures JoinParts(["image_refs", ref.repository, RefKey(ref), PlatformString(p)])
      == "image_refs" + "/" + (ref.repository + "/" + (RefKey(ref) + "/" + PlatformString(p)))
  {
    var key, platform := RefKey(ref), PlatformString(p);
    JoinTwo(key, platform);
    JoinCons(ref.repository, [key, platform]);
    JoinCons("image_refs", [ref.repository, key, platform]);
    assert [ref.repository] + [key, platform] == [ref.repository, key, platform];
    assert ["image_refs"] + [ref.repository, key, platform] == ["image_refs", ref.repository, key, platform];
  }

  /** Tag or digest under its marker, written out. */
  function KeyText(ref: Reference): string {
    match ref.digest case None => "_tag" + "/" + ref.tag case Some(d) => "_digest" + "/" + d.alg + "/" + d.encoded
  }

  lemma KeyIs(ref: Reference)
    requires WellFormedRef(ref)
    ensures RefKey(ref) == KeyText(ref)
  {
    KeyIsPlain(ref);
    match ref.digest
    case None => JoinTwo("_tag", ref.tag);
    case Some(d) => JoinThree("_digest", d.alg, d.encoded);
  }

  /** The path of a leaf, written out. */
  lemma LeafPathIs(ref: Reference, p: Platform)
    requires WellFormedRef(ref) && Accepted(p) && NoDots(p)
    ensures LeafPath(ref, p) == "image_refs" + "/" + (ref.repository + "/" + (KeyText(ref) + "/" +
      (p.os + "/" + p.arch + (if p.variant == "" then "" else "/" + p.variant))))
  {
    var text := JoinParts(["image_refs", ref.repository, RefKey(ref), PlatformString(p)]);
    LeafParts(ref, p);
    DotlessParts(ref, p);
    ElemsSplit(ref, p);
    JoinSplit(text);
    ElemsJoined(ref, p);
    KeyIs(ref);
  }

  lemma ElemsSplit(ref: Reference, p: Platform)
    requires WellFormedRef(ref) && Accepted(p)
    ensures Split(JoinParts(["image_refs", ref.repository, RefKey(ref), PlatformString(p)]))
         == ["image_refs"] + HeadParts(ref) + PlatformParts(p)
  {
    var tail := ref.repository + "/" + (RefKey(ref) + "/" + PlatformString(p));
    ElemsJoined(ref, p);
    SplitPart("image_refs", tail);
    SplitConcat(ref.repository, RefKey(ref) + "/" + PlatformString(p));
    SplitConcat(RefKey(ref), PlatformString(p));
    KeyIsPlain(ref);
    AcceptedParts(p);
  }

  // ---------------------------------------------------------------------------------------------
  // Round trip

  /** The marker of a printed leaf is the first one: repository components are none. */
  lemma {:induction false} MarkerAfterRepo(repo: seq<string>, rest: seq<string>)
    requires forall i | 0 <= i < |repo| :: RepoComponent(repo[i])
    requires rest != [] && (rest[0] == TAG_MARKER || rest[0] == DIGEST_MARKER)
    ensures MarkerIndex(repo + rest) == |repo|
    decreases |repo|
  {
    if repo == [] {
      assert repo + rest == rest;
    } else {
      assert RepoComponent(repo[0]);
      assert (repo + rest)[1..] == repo[1..] + rest;
      MarkerAfterRepo(repo[1..], rest);
    }
  }

  lemma ParsePrinted(ref: Reference, p: Platform)
    requires WellFormedRef(ref) && Accepted(p)
    ensures ParseSegs(HeadParts(ref) + PlatformParts(p)) == Some((Canonical(ref), p))
  {
    var repo := Split(ref.repository);
    var segs := HeadParts(ref) + PlatformParts(p);
    var rest := KeyParts(ref) + PlatformParts(p);
    assert segs == repo + rest;
    MarkerAfterRepo(repo, rest);
    assert segs[..|repo|] == repo;
    JoinSplit(ref.repository);
    AcceptedParts(p);
    AcceptedIff(p);
    if ref.digest.Some? {
      assert segs[|repo| + 3..] == PlatformParts(p);
    } else {
      assert segs[|repo| + 2..] == PlatformParts(p);
    }
  }

  /** A parsed platform's components are segments of the name. */
  lemma ParsedFromSegs(segs: seq<string>, ref: Reference, p: Platform)
    requires AllPlain(segs) && ParseSegs(segs) == Some((ref, p))
    ensures NoDots(p)
  {
    var i := MarkerIndex(segs);
    var rest := if segs[i] == TAG_MARKER then segs[i + 2..] else segs[i + 3..];
    assert ParsePlatform(JoinParts(rest)) == Some(p);
    assert Split("") == [""];
    SplitJoin(rest);
    assert forall k | 0 <= k < |rest| :: Plain(rest[k]);
  }

  /** Cutting the tree's prefix off a leaf cuts the first of its parts. */
  lemma CutLeaf(leaf: string, kept: seq<string>)
    requires Split(leaf) == kept && CutPrefix(leaf, "image_refs/").Some?
    ensures kept[0] == "image_refs" && Split(CutPrefix(leaf, "image_refs/").value) == kept[1..]
  {
    var rest := CutPrefix(leaf, "image_refs/").value;
    assert leaf == "image_refs" + "/" + rest;
    SplitPart("image_refs", rest);
  }

  lemma LeafHasPrefix(kept: seq<string>)
    requires |kept| > 1 && kept[0] == "image_refs"
    ensures CutPrefix(JoinParts(kept), "image_refs/").Some?
  {
    assert "image_refs/" == "image_refs" + "/";
    assert JoinParts(kept) == "image_refs" + "/" + JoinParts(kept[1..]);
  }

  /** Under the tree's prefix, the parts of the leaf follow. */
  lemma ParsesParts(leaf: string, parts: seq<string>)
    requires Split(leaf) == ["image_refs"] + parts && CutPrefix(leaf, "image_refs/").Some?
    ensures ParseLeaf(leaf) == ParseSegs(parts)
  {
    CutLeaf(leaf, ["image_refs"] + parts);
    assert (["image_refs"] + parts)[1..] == parts;
  }

  lemma ParsesBack(ref: Reference, p: Platform)
    requires WellFormedRef(ref) && Accepted(p) && NoDots(p)
    ensures ParseLeaf(LeafPath(ref, p)) == Some((Canonical(ref), p))
  {
    LeafParts(ref, p);
    DotlessParts(ref, p);
    var parts := HeadParts(ref) + PlatformParts(p);
    assert ["image_refs"] + HeadParts(ref) + PlatformParts(p) == ["image_refs"] + parts;
    LeafHasPrefix(["image_refs"] + parts);
    ParsesParts(LeafPath(ref, p), parts);
    ParsePrinted(ref, p);
  }

  /**
   * parseLeaf undoes LeafPath for every well-formed reference and every platform with components that
   * are given and have no slash, exactly when none of them is "." or "..".
   */
  lemma LeafRoundTrip(ref: Reference, p: Platform)
    requires WellFormedRef(ref) && Accepted(p)
    ensures ParseLeaf(LeafPath(ref, p)) == Some((Canonical(ref), p)) <==> NoDots(p)
  {
    if NoDots(p) {
      ParsesBack(ref, p);
    } else if ParseLeaf(LeafPath(ref, p)) == Some((Canonical(ref), p)) {
      LeafParts(ref, p);
      var kept := CleanFrom(["image_refs"] + HeadParts(ref), PlatformParts(p));
      CutLeaf(LeafPath(ref, p), kept);
      ParsedFromSegs(kept[1..], Canonical(ref), p);
    }
  }

  /** Leaf paths are injective: the same path means the same leaf. */
  lemma LeafPathInjective(a: Reference, p: Platform, b: Reference, q: Platform)
    requires WellFormedRef(a) && WellFormedRef(b) && Accepted(p) && Accepted(q) && NoDots(p) && NoDots(q)
    ensures LeafPath(a, p) == LeafPath(b, q) <==> LeafOf(a, p) == LeafOf(b, q)
  {
    LeafRoundTrip(a, p);
    LeafRoundTrip(b, q);
    if LeafOf(a, p) == LeafOf(b, q) {
      assert KeyParts(a) == KeyParts(b);
      assert RefKey(a) == RefKey(b);
    }
  }
}
