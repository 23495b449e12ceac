/** References, platforms, descriptors and the documents a store holds. */
module ImageModel {
  import opened Content

  datatype Platform = Platform(os: string, arch: string, variant: string) {
    /** OS and architecture exactly; variants only when both state one. */
    predicate Matches(o: Platform) {
      os == o.os && arch == o.arch && (variant == "" || o.variant == "" || variant == o.variant)
    }
  }

  datatype Reference = Reference(repository: string, tag: string, digest: Option<Digest>)

  datatype Descriptor = Descriptor(mediaType: string, digest: Digest, size: int)

  datatype Manifest = Manifest(mediaType: string, config: Descriptor, layers: seq<Descriptor>)

  datatype Config = Config(platform: Platform, diffIDs: seq<Digest>)

  const MEDIA_TYPE_MANIFEST := "application/vnd.oci.image.manifest.v1+json"
  const MEDIA_TYPE_DOCKER_MANIFEST := "application/vnd.docker.distribution.manifest.v2+json"
  const MEDIA_TYPE_INDEX := "application/vnd.oci.image.index.v1+json"
  const MEDIA_TYPE_DOCKER_LIST := "application/vnd.docker.distribution.manifest.list.v2+json"
  const MEDIA_TYPE_CONFIG := "application/vnd.oci.image.config.v1+json"
  const MEDIA_TYPE_LAYER_GZIP := "application/vnd.oci.image.layer.v1.tar+gzip"
  const MEDIA_TYPE_LAYER_ZSTD := "application/vnd.oci.image.layer.v1.tar+zstd"

  predicate IsManifest(mediaType: string) {
    mediaType == MEDIA_TYPE_MANIFEST || mediaType == MEDIA_TYPE_DOCKER_MANIFEST
  }

  predicate IsIndex(mediaType: string) {
    mediaType == MEDIA_TYPE_INDEX || mediaType == MEDIA_TYPE_DOCKER_LIST
  }

  /** Non-distributable layers. */
  predicate IsForeign(mediaType: string) {
    || mediaType == "application/vnd.oci.image.layer.nondistributable.v1.tar"
    || mediaType == "application/vnd.oci.image.layer.nondistributable.v1.tar+gzip"
    || mediaType == "application/vnd.oci.image.layer.nondistributable.v1.tar+zstd"
    || mediaType == "application/vnd.docker.image.rootfs.foreign.diff.tar.gzip"
  }

  predicate IsLowerHex(s: string) {
    forall i | 0 <= i < |s| :: '0' <= s[i] <= '9' || 'a' <= s[i] <= 'f'
  }

  /** Digest.Validate for the canonical algorithm. */
  predicate ValidDigest(d: Digest) {
    d.alg == "sha256" && |d.encoded| == 64 && IsLowerHex(d.encoded)
  }

  datatype Created = Fresh | Exists | Refused

  /** What the backend verifies of a body it is asked to create. */
  predicate Verifies(hash: Hash, body: Bytes, size: int, dgst: Option<Digest>) {
    && (size >= 0 ==> |body| == size)
    && (dgst.Some? ==> ValidDigest(dgst.value) && hash(body) == dgst.value)
  }

  /** Backend.Create: write a verified body when the name is absent. */
  function CreateIfAbsent<N(==)>(
      hash: Hash, es: map<N, Bytes>, name: N, body: Bytes, size: int, dgst: Option<Digest>): (map<N, Bytes>, Created)
  {
    if name in es then (es, Exists)
    else if !Verifies(hash, body, size, dgst) then (es, Refused)
    else (es[name := body], Fresh)
  }

  /** The hash and the JSON decoders, uninterpreted: every theorem holds for any of them. */
  datatype World = World(
    hash: Hash,
    manifest: Bytes -> Option<Manifest>,
    config: Bytes -> Option<Config>,
    index: Bytes -> Option<seq<Descriptor>>,
    mediaType: Bytes -> Option<string>,
    encodeIndex: (Reference, Platform, Descriptor) -> Bytes,
    layout: Bytes)

  /** Decoding the index.json that was written for a manifest finds exactly that manifest. */
  ghost predicate IndexRoundTrip(w: World) {
    forall ref, p, m :: w.index(w.encodeIndex(ref, p, m)) == Some([m])
  }
}
