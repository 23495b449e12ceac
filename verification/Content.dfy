/** Bytes, digests and the small generic types every component shares. */
module Content {

  newtype byte = x: int | 0 <= x < 256

  type Bytes = seq<byte>

  /** A digest `alg:encoded`; which bytes it names is decided by a `Hash`. */
  datatype Digest = Digest(alg: string, encoded: string)

  /** The canonical digest algorithm, left uninterpreted: every theorem holds for each such function. */
  type Hash = Bytes -> Digest

  ghost predicate CollisionFree(hash: Hash) {
    forall a, b :: hash(a) == hash(b) ==> a == b
  }

  datatype Option<+T> = None | Some(value: T)

  function Min(a: int, b: int): int {
    if a < b then a else b
  }

  /** No element occurs twice. */
  ghost predicate NoDuplicates<T>(s: seq<T>) {
    forall i, j | 0 <= i < j < |s| :: s[i] != s[j]
  }

  /** pwrite(2): bytes past the end are zero-filled, bytes under `data` are overwritten. */
  function WriteAt(file: Bytes, pos: nat, data: Bytes): Bytes {
    var padded := if pos <= |file| then file else file + seq(pos - |file|, _ => 0);
    padded[..pos] + data + (if pos + |data| <= |padded| then padded[pos + |data|..] else [])
  }

  lemma WriteAtEnd(file: Bytes, data: Bytes)
    ensures WriteAt(file, |file|, data) == file + data
  {
  }
}
