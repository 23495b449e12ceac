/**
 * One process using the blob cache alone: the download loop of Fetch, its retry, and Put.
 * Interference by other processes is the subject of BlobProtocol.
 */
module BlobCache {
  import opened Content

  /** Bytes asked of the source per read. */
  const BUF_SIZE: nat := 1048576

  datatype ReadErr = NoErr | Eof | Broken

  /** What one ReadAt returned: the bytes it filled in, never more than asked, and an error beside them. */
  datatype Reply = Reply(data: Bytes, err: ReadErr)

  /** A source's behaviour: the answer to its k-th read, at an offset, for a number of bytes. */
  type Replies = (nat, nat, nat) -> Reply

  function Serve(replies: Replies, k: nat, off: nat, want: nat): (r: Reply)
    ensures |r.data| <= want
  {
    var r := replies(k, off, want);
    if |r.data| <= want then r else r.(data := r.data[..want])
  }

  /**
   * A source of `blob` that keeps the io.ReaderAt rules: it serves the bytes at the offset, a short
   * read carries an error, and the only error is the end of the blob.
   */
  ghost predicate Honest(replies: Replies, blob: Bytes) {
    forall k: nat, off: nat, want: nat | off + want <= |blob| ::
      HonestReply(Serve(replies, k, off, want), blob, off, want)
  }

  ghost predicate HonestReply(r: Reply, blob: Bytes, off: nat, want: nat) {
    && off + |r.data| <= |blob|
    && r.data == blob[off..off + |r.data|]
    && (|r.data| < want ==> !r.err.NoErr?)
    && !r.err.Broken?
    && (r.err.Eof? ==> off + |r.data| == |blob|)
  }

  // ---------------------------------------------------------------------------------------------
  // What the loop computes

  datatype Outcome = Full | Cancelled | Short | Failed

  /** How the loop ended, the bytes it fed to the digester, and the number of reads it made. */
  datatype End = End(outcome: Outcome, fed: Bytes, count: nat)

  /** The loop from `fed` on: `k` reads were made, the context is cancelled after `polls` more checks. */
  function Drain(replies: Replies, k: nat, polls: nat, size: nat, fed: Bytes): (e: End)
    ensures fed <= e.fed && k <= e.count <= k + polls
    ensures |fed| <= size ==> |e.fed| <= size
    ensures |fed| <= size && e.outcome.Full? ==> |e.fed| == size
    decreases polls
  {
    if |fed| >= size then End(Full, fed, k)
    else if polls == 0 then End(Cancelled, fed, k)
    else
      var r := Serve(replies, k, |fed|, Min(BUF_SIZE, size - |fed|));
      var fed' := fed + r.data;
      if r.err.NoErr? || (r.err.Eof? && |fed'| == size) then Drain(replies, k + 1, polls - 1, size, fed')
      else End(if r.err.Eof? then Short else Failed, fed', k + 1)
  }

  /** An honest source always fills the file up, in at most one read per missing byte. */
  lemma {:induction false} HonestDrainFills(replies: Replies, blob: Bytes, k: nat, polls: nat, fed: Bytes)
    requires Honest(replies, blob) && |fed| <= |blob| && |blob| - |fed| <= polls
    ensures var e := Drain(replies, k, polls, |blob|, fed);
      e.outcome.Full? && e.fed == fed + blob[|fed|..] && e.count - k <= |blob| - |fed|
    decreases polls
  {
    if |fed| < |blob| {
      var want := Min(BUF_SIZE, |blob| - |fed|);
      var r := Serve(replies, k, |fed|, want);
      assert HonestReply(r, blob, |fed|, want);
      HonestDrainFills(replies, blob, k + 1, polls - 1, fed + r.data);
    }
  }

  /** A resumed download yields the same bytes as a fresh one whenever the reused part is a prefix. */
  lemma ResumeEqualsFresh(replies: Replies, blob: Bytes, k: nat, polls: nat, saved: Bytes)
    requires Honest(replies, blob) && saved <= blob && |blob| <= polls
    ensures Drain(replies, k, polls, |blob|, saved).fed == Drain(replies, k, polls, |blob|, []).fed == blob
  {
    HonestDrainFills(replies, blob, k, polls, saved);
    HonestDrainFills(replies, blob, k, polls, []);
    assert saved + blob[|saved|..] == blob;
  }

  /** What a partial file leaves of itself for a fetch of `size` bytes. */
  function Reused(partial: Option<Bytes>, size: nat): (s: Bytes)
    ensures |s| <= size
  {
    if partial.Some? && |partial.value| <= size then partial.value else []
  }

  function Lookup(files: map<Digest, Bytes>, d: Digest): Option<Bytes> {
    if d in files then Some(files[d]) else None
  }

  /** The bytes of the partial file a Fetch of `size` bytes reuses. */
  function Saved(partial: map<Digest, Bytes>, d: Digest, size: nat): (s: Bytes)
    ensures |s| <= size
  {
    Reused(Lookup(partial, d), size)
  }

  // ---------------------------------------------------------------------------------------------
  // What an attempt and a whole fetch leave behind

  /** The error, the partial file, what was committed, and the number of reads made so far. */
  datatype Attempt = Attempt(err: Error, partial: Option<Bytes>, blob: Option<Bytes>, count: nat)

  /** A blob is committed exactly on success, under its digest; only an interrupted fetch keeps its partial file. */
  ghost predicate Consistent(hash: Hash, d: Digest, size: nat, a: Attempt) {
    && (a.blob.Some? <==> a.err == NoError) && (a.blob.Some? ==> hash(a.blob.value) == d)
    && (a.partial.Some? <==> a.err == ContextDone || a.err == SourceFailed)
    && (a.partial.Some? ==> |a.partial.value| <= size)
    && a.err != NegativeSize
  }

  /** One attempt at a blob that is not cached. */
  function AttemptEnds(
      hash: Hash, partial: Option<Bytes>, d: Digest, size: nat, replies: Replies, k: nat, polls: nat): (a: Attempt)
    ensures k <= a.count <= k + polls && Consistent(hash, d, size, a)
  {
    var e := Drain(replies, k, polls, size, Reused(partial, size));
    match e.outcome
    case Full =>
      if hash(e.fed) == d then Attempt(NoError, None, Some(e.fed), e.count) else Attempt(Mismatch, None, None, e.count)
    case Short => Attempt(Mismatch, None, None, e.count)
    case Cancelled => Attempt(ContextDone, Some(e.fed), None, e.count)
    case Failed => Attempt(SourceFailed, Some(e.fed), None, e.count)
  }

  /** These are the answers to the reads from `fed` on, one after the other, and `end` is what was read by then. */
  ghost predicate Read(replies: Replies, k: nat, size: nat, fed: Bytes, rs: seq<Reply>, end: Bytes)
    decreases |rs|
  {
    if rs == [] then end == fed
    else
      && |fed| < size && rs[0] == Serve(replies, k, |fed|, Min(BUF_SIZE, size - |fed|))
      && (|rs| > 1 ==> rs[0].err.NoErr?)
      && Read(replies, k + 1, size, fed + rs[0].data, rs[1..], end)
  }

  /** The error beside the last answer. */
  function LastErr(rs: seq<Reply>): ReadErr {
    if rs == [] then NoErr else rs[|rs| - 1].err
  }

  /** The loop reads until it has all, the context is done, or an answer comes with an error it cannot take. */
  lemma {:induction false} DrainReads(replies: Replies, k: nat, polls: nat, size: nat, fed: Bytes)
    returns (rs: seq<Reply>)
    requires |fed| <= size
    ensures var e := Drain(replies, k, polls, size, fed);
      && Read(replies, k, size, fed, rs, e.fed) && e.count == k + |rs|
      && (e.outcome.Failed? <==> LastErr(rs).Broken?)
      && (e.outcome.Short? <==> LastErr(rs).Eof? && |e.fed| < size)
      && (e.outcome.Cancelled? <==> LastErr(rs).NoErr? && |e.fed| < size)
      && (e.outcome.Cancelled? ==> |rs| == polls)
    decreases polls
  {
    if |fed| >= size || polls == 0 {
      return [];
    }
    var r := Serve(replies, k, |fed|, Min(BUF_SIZE, size - |fed|));
    rs := [r];
    assert rs[1..] == [];
    if r.err.NoErr? {
      var rest := DrainReads(replies, k + 1, polls - 1, size, fed + r.data);
      assert ([r] + rest)[1..] == rest;
      rs := [r] + rest;
    }
  }

  /**
   * An attempt ends as its last answer says. A source that ends early is a mismatch, and what was read
   * is discarded; any other error keeps it, even beside the last byte, and so does a context that is
   * done. With all bytes read the digest decides.
   */
  lemma LastReplyDecides(
      hash: Hash, partial: Option<Bytes>, d: Digest, size: nat, replies: Replies, k: nat, polls: nat)
    returns (rs: seq<Reply>, got: Bytes)
    ensures Read(replies, k, size, Reused(partial, size), rs, got)
    ensures var a := AttemptEnds(hash, partial, d, size, replies, k, polls);
      && a.count == k + |rs|
      && (LastErr(rs).Broken? ==> a.err == SourceFailed && a.partial == Some(got))
      && (LastErr(rs).Eof? && |got| < size ==> a.err == Mismatch && a.partial == None)
      && (LastErr(rs).NoErr? && |got| < size ==> a.err == ContextDone && a.partial == Some(got) && |rs| == polls)
      && (!LastErr(rs).Broken? && |got| >= size ==>
            a.partial == None && if hash(got) == d then a.err == NoError && a.blob == Some(got) else a.err == Mismatch)
  {
    rs := DrainReads(replies, k, polls, size, Reused(partial, size));
    got := Drain(replies, k, polls, size, Reused(partial, size)).fed;
  }

  /** A mismatch of a reused prefix gets a second attempt, from nothing. */
  function FetchEnds(
      hash: Hash, partial: Option<Bytes>, d: Digest, size: nat, replies: Replies, k: nat, polls: nat): (a: Attempt)
    ensures Consistent(hash, d, size, a)
  {
    var a := AttemptEnds(hash, partial, d, size, replies, k, polls);
    if a.err == Mismatch && Reused(partial, size) != [] then
      AttemptEnds(hash, None, d, size, replies, a.count, polls - (a.count - k))
    else a
  }

  /** Two attempts at most, one when what is reused is a prefix of the blob. */
  ghost predicate HonestFetch(
      hash: Hash, partial: Option<Bytes>, d: Digest, blob: Bytes, replies: Replies, k: nat, polls: nat)
  {
    var a := FetchEnds(hash, partial, d, |blob|, replies, k, polls);
    && (polls >= 2 * |blob| ==> a.err == NoError && (CollisionFree(hash) ==> a.blob == Some(blob)))
    && (Reused(partial, |blob|) <= blob ==>
          a == AttemptEnds(hash, partial, d, |blob|, replies, k, polls) && a.blob == Some(blob))
  }

  /** Against an honest source that is how a fetch ends. */
  lemma HonestFetchEnds(
      hash: Hash, partial: Option<Bytes>, d: Digest, blob: Bytes, replies: Replies, k: nat, polls: nat)
    requires Honest(replies, blob) && hash(blob) == d && polls >= |blob|
    ensures HonestFetch(hash, partial, d, blob, replies, k, polls)
  {
    HonestAttemptFills(replies, blob, k, polls, Reused(partial, |blob|));
    var a := AttemptEnds(hash, partial, d, |blob|, replies, k, polls);
    if polls - (a.count - k) >= |blob| {
      HonestAttemptFills(replies, blob, a.count, polls - (a.count - k), []);
    }
  }

  /** The cache's two directories after an attempt that ended so. */
  ghost predicate Leaves(
      a: Attempt, d: Digest, partial: map<Digest, Bytes>, blobs: map<Digest, Bytes>,
      partial': map<Digest, Bytes>, blobs': map<Digest, Bytes>)
  {
    && Lookup(partial', d) == a.partial
    && blobs' == match a.blob case None => blobs case Some(b) => blobs[d := b]
  }

  // ---------------------------------------------------------------------------------------------

  datatype Descriptor = Descriptor(digest: Digest, size: int)

  datatype Error = NoError | NegativeSize | Mismatch | SourceFailed | ContextDone

  /** A context that reports cancellation after a given number of checks. */
  class Context {
    var polls: nat

    constructor (n: nat)
      ensures polls == n
    {
      polls := n;
    }

    method Cancelled() returns (c: bool)
      modifies this
      ensures c == (old(polls) == 0)
      ensures polls == if c then 0 else old(polls) - 1
    {
      c := polls == 0;
      if !c {
        polls := polls - 1;
      }
    }
  }

  /** One attempt gets a whole blob, from a good prefix the right one, in no more reads than it has bytes. */
  ghost predicate AttemptFills(r: Replies, blob: Bytes, k: nat, polls: nat, saved: Bytes) {
    var e := Drain(r, k, polls, |blob|, saved);
    e.outcome.Full? && e.count - k <= |blob| && (saved <= blob ==> e.fed == blob)
  }

  lemma HonestAttemptFills(r: Replies, blob: Bytes, k: nat, polls: nat, saved: Bytes)
    requires Honest(r, blob) && polls >= |blob| >= |saved|
    ensures AttemptFills(r, blob, k, polls, saved)
  {
    HonestDrainFills(r, blob, k, polls, saved);
    if saved <= blob {
      assert saved + blob[|saved|..] == blob;
    }
  }

  /** A blob reader that records the offset and length of each read. */
  class Source {
    const replies: Replies
    var calls: seq<(nat, nat)>

    constructor (r: Replies)
      ensures replies == r && calls == []
    {
      replies := r;
      calls := [];
    }

    method ReadAt(off: nat, want: nat) returns (r: Reply)
      modifies this
      ensures r == Serve(replies, |old(calls)|, off, want)
      ensures calls == old(calls) + [(off, want)]
    {
      r := Serve(replies, |calls|, off, want);
      calls := calls + [(off, want)];
    }
  }

  /** Every read made since `before` stays between the saved length and the size. */
  ghost predicate ReadsFrom(before: seq<(nat, nat)>, calls: seq<(nat, nat)>, saved: nat, size: nat) {
    && before <= calls
    && forall i | |before| <= i < |calls| :: saved <= calls[i].0 && calls[i].0 + calls[i].1 <= size
  }

  class Cache {
    const hash: Hash
    var partial: map<Digest, Bytes>
    var blobs: map<Digest, Bytes>

    ghost predicate Valid()
      reads this
    {
      forall d | d in blobs :: hash(blobs[d]) == d
    }

    constructor (h: Hash)
      ensures Valid() && hash == h && partial == map[] && blobs == map[]
    {
      hash := h;
      partial := map[];
      blobs := map[];
    }

    /** The loop of one attempt: read at the end of the partial file, append, feed the digester. */
    method Stream(ctx: Context, name: Digest, size: nat, src: Source) returns (outcome: Outcome, fed: Bytes)
      requires name in partial && |partial[name]| <= size
      modifies this`partial, ctx, src
      ensures Drain(src.replies, |old(src.calls)|, old(ctx.polls), size, old(partial)[name])
           == End(outcome, fed, |src.calls|)
      ensures old(ctx.polls) - ctx.polls == |src.calls| - |old(src.calls)|
      ensures ReadsFrom(old(src.calls), src.calls, |old(partial)[name]|, size)
      ensures partial == old(partial)[name := fed]
    {
      fed := partial[name];
      var done := |fed|;
      ghost var calls0, polls0 := src.calls, ctx.polls;
      while done < size
        invariant partial == old(partial)[name := fed] && done == |fed| <= size
        invariant |old(partial)[name]| <= done
        invariant |calls0| <= |src.calls| && polls0 - ctx.polls == |src.calls| - |calls0|
        invariant ReadsFrom(calls0, src.calls, |old(partial)[name]|, size)
        invariant Drain(src.replies, |calls0|, polls0, size, old(partial)[name])
               == Drain(src.replies, |src.calls|, ctx.polls, size, fed)
        decreases ctx.polls
      {
        var cancelled := ctx.Cancelled();
        if cancelled {
          return Cancelled, fed;
        }
        var r := src.ReadAt(done, Min(BUF_SIZE, size - done));
        WriteAtEnd(partial[name], r.data);
        partial := partial[name := WriteAt(partial[name], done, r.data)];
        fed := fed + r.data;
        done := done + |r.data|;
        if !r.err.NoErr? && (!r.err.Eof? || done != size) {
          return (if r.err.Eof? then Short else Failed), fed;
        }
      }
      outcome := Full;
    }

    /** One attempt; reports whether it reused a non-empty partial prefix. */
    method FetchOnce(ctx: Context, desc: Descriptor, src: Source) returns (resumed: bool, err: Error)
      requires Valid() && desc.size >= 0
      modifies this, ctx, src
      ensures Valid()
      ensures old(desc.digest in blobs) ==>
        err == NoError && !resumed && blobs == old(blobs) && src.calls == old(src.calls)
      ensures partial - {desc.digest} == old(partial) - {desc.digest}
      ensures old(desc.digest !in blobs) ==>
        var saved := Saved(old(partial), desc.digest, desc.size);
        var e := Drain(src.replies, |old(src.calls)|, old(ctx.polls), desc.size, saved);
        && resumed == (saved != [])
        && |src.calls| == e.count
        && old(ctx.polls) - ctx.polls == e.count - |old(src.calls)|
        && ReadsFrom(old(src.calls), src.calls, |saved|, desc.size)
        && match e.outcome
          case Full =>
            if hash(e.fed) == desc.digest then
              err == NoError && blobs == old(blobs)[desc.digest := e.fed] && desc.digest !in partial
            else
              err == Mismatch && blobs == old(blobs) && desc.digest !in partial
          case Short => err == Mismatch && blobs == old(blobs) && desc.digest !in partial
          case Cancelled =>
            err == ContextDone && blobs == old(blobs) && desc.digest in partial && partial[desc.digest] == e.fed
          case Failed =>
            err == SourceFailed && blobs == old(blobs) && desc.digest in partial && partial[desc.digest] == e.fed
      // The same, as one function of what was there.
      ensures old(desc.digest !in blobs) ==>
        var a := AttemptEnds(hash, Lookup(old(partial), desc.digest), desc.digest, desc.size,
          src.replies, |old(src.calls)|, old(ctx.polls));
        && err == a.err && |src.calls| == a.count
        && Leaves(a, desc.digest, old(partial), old(blobs), partial, blobs)
    {
      var name := desc.digest;
      if name !in partial {
        partial := partial[name := []];
      }
      if name in blobs {
        return false, NoError;
      }
      if |partial[name]| > desc.size {
        partial := partial[name := []];
      }
      resumed := |partial[name]| > 0;
      var outcome, fed := Stream(ctx, name, desc.size, src);
      err := Settle(name, outcome, fed);
    }

    /** After the loop: keep the partial file, discard it, or commit it when the digest matches. */
    method Settle(name: Digest, outcome: Outcome, fed: Bytes) returns (err: Error)
      requires Valid() && name in partial && partial[name] == fed
      modifies this
      ensures Valid() && partial - {name} == old(partial) - {name}
      ensures match outcome
        case Full =>
          if hash(fed) == name then
            err == NoError && blobs == old(blobs)[name := fed] && name !in partial
          else
            err == Mismatch && blobs == old(blobs) && name !in partial
        case Short => err == Mismatch && blobs == old(blobs) && name !in partial
        case Cancelled => err == ContextDone && blobs == old(blobs) && partial == old(partial)
        case Failed => err == SourceFailed && blobs == old(blobs) && partial == old(partial)
    {
      match outcome
      case Cancelled => err := ContextDone;
      case Failed => err := SourceFailed;
      case Short =>
        partial := partial - {name};
        err := Mismatch;
      case Full =>
        if hash(fed) != name {
          partial := partial - {name};
          err := Mismatch;
        } else {
          blobs := blobs[name := partial[name]];
          partial := partial - {name};
          err := NoError;
        }
    }

    /**
     * Copies the blob into the cache. With an honest source and no cancellation it succeeds whatever
     * the partial file held, of any length, in at most two attempts.
     */
    method Fetch(ctx: Context, desc: Descriptor, src: Source) returns (err: Error)
      requires Valid()
      modifies this, ctx, src
      ensures Valid()
      // Only this blob is ever added, and exactly on success.
      ensures err == NoError ==> desc.digest in blobs
      ensures forall d | d in old(blobs) :: d in blobs && blobs[d] == old(blobs)[d]
      ensures blobs.Keys <= old(blobs).Keys + {desc.digest}
      ensures err != NoError ==> blobs == old(blobs)
      ensures desc.size < 0 ==> err == NegativeSize && partial == old(partial)
      // A cancelled or failed fetch keeps its partial file, never longer than the blob; a mismatch discards it.
      ensures err == ContextDone || err == SourceFailed ==>
        desc.digest in partial && desc.size >= |partial[desc.digest]|
      ensures err == Mismatch ==> desc.digest !in partial
      ensures partial - {desc.digest} == old(partial) - {desc.digest}
      // All of it, as one function of what was there.
      ensures desc.size >= 0 && old(desc.digest !in blobs) ==>
        var a := FetchEnds(hash, Lookup(old(partial), desc.digest), desc.digest, desc.size,
          src.replies, |old(src.calls)|, old(ctx.polls));
        err == a.err && |src.calls| == a.count && Leaves(a, desc.digest, old(partial), old(blobs), partial, blobs)
      // An honest source: success, and the blob itself when the hash has no collisions.
      ensures forall blob: Bytes | Honest(src.replies, blob) && |blob| == desc.size
          && hash(blob) == desc.digest && old(ctx.polls) >= 2 * |blob| ::
        && err == NoError
        && (old(desc.digest !in blobs) && CollisionFree(hash) ==> blobs[desc.digest] == blob)
      // With a good prefix (or none) one attempt suffices and no saved byte is read again.
      ensures forall blob: Bytes | Honest(src.replies, blob) && |blob| == desc.size
          && hash(blob) == desc.digest && old(ctx.polls) >= |blob| && old(desc.digest !in blobs)
          && Saved(old(partial), desc.digest, desc.size) <= blob ::
        && err == NoError && blobs == old(blobs)[desc.digest := blob]
        && ReadsFrom(old(src.calls), src.calls, |Saved(old(partial), desc.digest, desc.size)|, desc.size)
    {
      if desc.size < 0 {
        return NegativeSize;
      }
      if desc.digest in blobs {
        return NoError;
      }
      ghost var partial0, k, polls := Lookup(partial, desc.digest), |src.calls|, ctx.polls;
      err := FetchAbsent(ctx, desc, src);
      forall blob: Bytes | Honest(src.replies, blob)
          && |blob| == desc.size && hash(blob) == desc.digest && polls >= |blob|
        ensures HonestFetch(hash, partial0, desc.digest, blob, src.replies, k, polls)
      {
        HonestFetchEnds(hash, partial0, desc.digest, blob, src.replies, k, polls);
      }
    }

    /** The attempts: a second one after a mismatch of a reused prefix. */
    method FetchAbsent(ctx: Context, desc: Descriptor, src: Source) returns (err: Error)
      requires Valid() && desc.size >= 0 && desc.digest !in blobs
      modifies this, ctx, src
      ensures Valid() && partial - {desc.digest} == old(partial) - {desc.digest}
      ensures
        var a := FetchEnds(hash, Lookup(old(partial), desc.digest), desc.digest, desc.size,
          src.replies, |old(src.calls)|, old(ctx.polls));
        err == a.err && |src.calls| == a.count && Leaves(a, desc.digest, old(partial), old(blobs), partial, blobs)
      ensures
        AttemptEnds(hash, Lookup(old(partial), desc.digest), desc.digest, desc.size,
          src.replies, |old(src.calls)|, old(ctx.polls)).err == NoError ==>
          ReadsFrom(old(src.calls), src.calls, |Saved(old(partial), desc.digest, desc.size)|, desc.size)
    {
      var resumed;
      resumed, err := FetchOnce(ctx, desc, src);
      if err == Mismatch && resumed {
        resumed, err := FetchOnce(ctx, desc, src);
      }
    }

    /** Stores what `r` yields under its own digest; None is a reader that failed. */
    method Put(r: Option<Bytes>) returns (desc: Option<Descriptor>)
      requires Valid()
      modifies this`blobs
      ensures Valid()
      ensures desc.Some? <==> r.Some?
      ensures r.None? ==> blobs == old(blobs)
      ensures r.Some? ==>
        && desc.value == Descriptor(hash(r.value), |r.value|)
        && blobs == (if desc.value.digest in old(blobs) then old(blobs) else old(blobs)[desc.value.digest := r.value])
    {
      if r.None? {
        return None;
      }
      var d := hash(r.value);
      if d !in blobs {
        blobs := blobs[d := r.value];
      }
      desc := Some(Descriptor(d, |r.value|));
    }
  }
}
