/** What every schedule of the blob cache protocol keeps, over whole runs. */
module BlobSafety {
  import opened Content
  import opened BlobProtocol

  ghost predicate Reachable(c: Params, s: State) {
    exists init, run :: Init(c, init) && Exec(c, init, run) == Some(s)
  }

  lemma {:induction false} RunKeepsInv(c: Params, s: State, run: seq<(Pid, Event)>)
    requires c.unix && Inv(c, s) && Exec(c, s, run).Some?
    ensures Inv(c, Exec(c, s, run).value)
    decreases |run|
  {
    if run != [] {
      StepKeepsInv(c, s, run[0].0, run[0].1);
      RunKeepsInv(c, Step(c, s, run[0].0, run[0].1).value, run[1..]);
    }
  }

  lemma ReachableInv(c: Params, s: State)
    requires c.unix && Reachable(c, s)
    ensures Inv(c, s)
  {
    var init, run :| Init(c, init) && Exec(c, init, run) == Some(s);
    InitEstablishes(c, init);
    RunKeepsInv(c, init, run);
  }

  // ---------------------------------------------------------------------------------------------
  // At most one writer

  /** A process past the SameFile check holds the only lock on the file now at the partial name. */
  lemma CriticalHoldsTheFile(c: Params, s: State, p: Pid)
    requires c.unix && Reachable(c, s) && s.Phase(p).Critical()
    ensures var ph := s.Phase(p);
      && PartialName(ph.job.desc.digest) in s.dir
      && s.dir[PartialName(ph.job.desc.digest)] == ph.ino
      && ph.ino in s.locks && s.locks[ph.ino] == p
  {
    ReachableInv(c, s);
    assert PhaseOK(c, s, s.Phase(p));
  }

  lemma OneWriter(c: Params, s: State, p: Pid, q: Pid)
    requires c.unix && Reachable(c, s) && s.Phase(p).Critical() && s.Phase(q).Critical()
    requires s.Phase(p).job.desc.digest == s.Phase(q).job.desc.digest || s.Phase(p).ino == s.Phase(q).ino
    ensures p == q
  {
    CriticalHoldsTheFile(c, s, p);
    CriticalHoldsTheFile(c, s, q);
  }

  /** Rename and remove go by name, yet always move or unlink the file the process has locked. */
  lemma ByNameHitsLockedFile(c: Params, s: State, p: Pid, e: Event)
    requires c.unix && Reachable(c, s) && Step(c, s, p, e).Some?
    requires e == Commit(true) || e == Discard(true)
    ensures var ph, s' := s.Phase(p), Step(c, s, p, e).value;
      && PartialName(ph.job.desc.digest) in s.dir
      && s.dir[PartialName(ph.job.desc.digest)] == ph.ino
      && PartialName(ph.job.desc.digest) !in s'.dir
      && (e.Commit? ==>
        && BlobName(ph.job.desc.digest) in s'.dir
        && s'.dir[BlobName(ph.job.desc.digest)] == ph.ino
        && ph.ino in s'.files
        && c.hash(s'.files[ph.ino]) == ph.job.desc.digest)
  {
    CriticalHoldsTheFile(c, s, p);
    ReachableInv(c, s);
    assert PhaseOK(c, s, s.Phase(p));
  }

  // ---------------------------------------------------------------------------------------------
  // Blob integrity

  /** An inode that is neither a partial nor a scratch file: committed, replaced or discarded. */
  ghost predicate Sealed(s: State, i: Ino) {
    i in s.files && forall n | n in s.dir && s.dir[n] == i :: n.BlobName?
  }

  lemma StepIsLegal(c: Params, s: State, p: Pid, e: Event)
    requires c.unix && Inv(c, s) && Step(c, s, p, e).Some?
    ensures Legal(c, s, p, Act(c, s, s.Phase(p), e).value.0) && PhaseOK(c, s, s.Phase(p))
  {
    ActIsGood(c, s, p, e);
  }

  lemma LegalKeepsSealed(c: Params, s: State, p: Pid, effect: Effect, ph': Phase, i: Ino)
    requires NamesOK(s) && PhaseOK(c, s, s.Phase(p)) && Legal(c, s, p, effect) && Sealed(s, i)
    ensures var s' := s.Do(p, effect, ph'); Sealed(s', i) && s'.files[i] == s.files[i]
  {
  }

  lemma StepKeepsSealed(c: Params, s: State, p: Pid, e: Event, i: Ino)
    requires c.unix && Inv(c, s) && Step(c, s, p, e).Some? && Sealed(s, i)
    ensures var s' := Step(c, s, p, e).value; Sealed(s', i) && s'.files[i] == s.files[i]
  {
    StepIsLegal(c, s, p, e);
    LegalKeepsSealed(c, s, p, Act(c, s, s.Phase(p), e).value.0, Act(c, s, s.Phase(p), e).value.1, i);
  }

  /** Once sealed, an inode's bytes never change again, whoever still has it open. */
  lemma {:induction false} SealedForever(c: Params, s: State, run: seq<(Pid, Event)>, i: Ino)
    requires c.unix && Inv(c, s) && Exec(c, s, run).Some? && Sealed(s, i)
    ensures var s' := Exec(c, s, run).value; Sealed(s', i) && s'.files[i] == s.files[i]
    decreases |run|
  {
    if run != [] {
      StepKeepsSealed(c, s, run[0].0, run[0].1, i);
      StepKeepsInv(c, s, run[0].0, run[0].1);
      SealedForever(c, Step(c, s, run[0].0, run[0].1).value, run[1..], i);
    }
  }

  lemma {:induction false} BlobNamesStay(c: Params, s: State, run: seq<(Pid, Event)>, d: Digest)
    requires c.unix && Inv(c, s) && Exec(c, s, run).Some? && BlobName(d) in s.dir
    ensures BlobName(d) in Exec(c, s, run).value.dir
    decreases |run|
  {
    if run != [] {
      StepIsLegal(c, s, run[0].0, run[0].1);
      StepKeepsInv(c, s, run[0].0, run[0].1);
      BlobNamesStay(c, Step(c, s, run[0].0, run[0].1).value, run[1..], d);
    }
  }

  /**
   * Blob integrity: in every reachable state a file under blobs/ hashes to its name; it is there in
   * every later state, and the inode that was there then is never written again.
   */
  lemma BlobIntegrity(c: Params, s: State, run: seq<(Pid, Event)>, d: Digest)
    requires c.unix && Reachable(c, s) && BlobName(d) in s.dir && Exec(c, s, run).Some?
    ensures var i, s' := s.dir[BlobName(d)], Exec(c, s, run).value;
      && i in s.files && i in s'.files
      && c.hash(s.files[i]) == d
      && s'.files[i] == s.files[i]
      && BlobName(d) in s'.dir && s'.dir[BlobName(d)] in s'.files
      && c.hash(s'.files[s'.dir[BlobName(d)]]) == d
  {
    ReachableInv(c, s);
    SealedForever(c, s, run, s.dir[BlobName(d)]);
    BlobNamesStay(c, s, run, d);
    RunKeepsInv(c, s, run);
  }

  // ---------------------------------------------------------------------------------------------
  // Honest sources: partial files are prefixes, and nothing is ever thrown away

  /** The source serves the blob its descriptor names and ends only where the blob ends. */
  ghost predicate HonestEvent(c: Params, content: Digest -> Bytes, ph: Phase, e: Event) {
    && (e.FetchBegin? ==>
      |content(e.desc.digest)| == e.desc.size && c.hash(content(e.desc.digest)) == e.desc.digest)
    && (e.SrcRead? && ph.Copying? ==>
      var blob := content(ph.job.desc.digest);
      && ph.done + |e.data| <= |blob|
      && e.data == blob[ph.done..ph.done + |e.data|]
      && (e.err.Eof? ==> ph.done + |e.data| == |blob|))
  }

  ghost predicate HonestRun(c: Params, content: Digest -> Bytes, s: State, run: seq<(Pid, Event)>)
    decreases |run|
  {
    run != [] ==>
      && HonestEvent(c, content, s.Phase(run[0].0), run[0].1)
      && (var s' := Step(c, s, run[0].0, run[0].1); s'.Some? ==> HonestRun(c, content, s'.value, run[1..]))
  }

  /** A Fetch under way was asked for the blob its digest names. */
  predicate HasJob(ph: Phase) {
    ph.Opening? || ph.Waiting? || ph.HoldsLock()
  }

  ghost predicate PhasePrefix(c: Params, content: Digest -> Bytes, ph: Phase) {
    && !ph.Discarding?
    && (HasJob(ph) ==>
      var desc := ph.job.desc;
      && |content(desc.digest)| == desc.size
      && c.hash(content(desc.digest)) == desc.digest
      && (ph.Writing? ==>
        && ph.fed + ph.chunk <= content(desc.digest)
        && (ph.rerr.Eof? ==> |ph.fed + ph.chunk| == desc.size)))
  }

  ghost predicate Prefixes(c: Params, content: Digest -> Bytes, s: State) {
    FilePrefixes(content, s) && forall p: Pid :: PhasePrefix(c, content, s.Phase(p))
  }

  ghost predicate FilePrefixes(content: Digest -> Bytes, s: State) {
    forall d | PartialName(d) in s.dir && s.dir[PartialName(d)] in s.files ::
      s.files[s.dir[PartialName(d)]] <= content(d)
  }

  lemma FullPrefix(a: Bytes, b: Bytes)
    requires a <= b && |a| >= |b|
    ensures a == b
  {
  }

  lemma StreamKeepsPhasePrefix(c: Params, content: Digest -> Bytes, s: State, p: Pid, e: Event)
    requires s.Phase(p).Hashing? || s.Phase(p).Copying? || s.Phase(p).Writing?
    requires PhasePrefix(c, content, s.Phase(p)) && HonestEvent(c, content, s.Phase(p), e)
    requires PhaseOK(c, s, s.Phase(p))
    requires s.Phase(p).ino in s.files && s.files[s.Phase(p).ino] <= content(s.Phase(p).job.desc.digest)
    ensures ActStream(c, s, s.Phase(p), e).Some? ==>
      PhasePrefix(c, content, ActStream(c, s, s.Phase(p), e).value.1)
  {
    var ph := s.Phase(p);
    if ph.Copying? && ph.done >= ph.job.desc.size {
      FullPrefix(ph.fed, content(ph.job.desc.digest));
    }
  }

  /** Only the streaming loop reads chunks or condemns a file; a call keeps the descriptor it began with. */
  lemma OutsideTheLoop(c: Params, s: State, ph: Phase, e: Event)
    requires Act(c, s, ph, e).Some?
    requires !(ph.Hashing? || ph.Copying? || ph.Writing?)
    ensures var ph' := Act(c, s, ph, e).value.1;
      && !ph'.Writing? && !ph'.Discarding?
      && (HasJob(ph') ==>
        (HasJob(ph) && ph'.job.desc == ph.job.desc) || (e.FetchBegin? && ph'.job.desc == e.desc))
  {
  }

  lemma ActKeepsPhasePrefix(c: Params, content: Digest -> Bytes, s: State, p: Pid, e: Event)
    requires Prefixes(c, content, s) && HonestEvent(c, content, s.Phase(p), e)
    requires PhaseOK(c, s, s.Phase(p)) && Act(c, s, s.Phase(p), e).Some?
    ensures PhasePrefix(c, content, Act(c, s, s.Phase(p), e).value.1)
  {
    var ph := s.Phase(p);
    assert PhasePrefix(c, content, ph);
    if e.Crash? || e.Fail? {
    } else if ph.Hashing? || ph.Copying? || ph.Writing? {
      StreamKeepsPhasePrefix(c, content, s, p, e);
    } else {
      OutsideTheLoop(c, s, ph, e);
    }
  }

  /** The only bytes a critical process ever leaves in its file: none, or what it has read so far. */
  lemma WritesArePrefixes(c: Params, s: State, p: Pid, e: Event)
    requires PhaseOK(c, s, s.Phase(p)) && s.Phase(p).Critical()
    requires Act(c, s, s.Phase(p), e).Some? && Act(c, s, s.Phase(p), e).value.0.SetFile?
    ensures var ph, file := s.Phase(p), Act(c, s, s.Phase(p), e).value.0.content;
      file == [] || (ph.Writing? && file <= ph.fed + ph.chunk)
  {
    var ph := s.Phase(p);
    if ph.Writing? {
      WriteExtends(c, s, p, e);
    } else if ph.Oversize? {
      assert Act(c, s, ph, e) == ActBefore(s, ph, e);
    }
  }

  lemma WriteExtends(c: Params, s: State, p: Pid, e: Event)
    requires PhaseOK(c, s, s.Phase(p)) && s.Phase(p).Writing?
    requires ActStream(c, s, s.Phase(p), e).Some? && ActStream(c, s, s.Phase(p), e).value.0.SetFile?
    ensures ActStream(c, s, s.Phase(p), e).value.0.content <= s.Phase(p).fed + s.Phase(p).chunk
  {
  }

  lemma SetsPrefix(c: Params, content: Digest -> Bytes, s: State, p: Pid, e: Event)
    requires PhaseOK(c, s, s.Phase(p)) && PhasePrefix(c, content, s.Phase(p)) && s.Phase(p).Critical()
    requires Act(c, s, s.Phase(p), e).Some? && Act(c, s, s.Phase(p), e).value.0.SetFile?
    ensures Act(c, s, s.Phase(p), e).value.0.content <= content(s.Phase(p).job.desc.digest)
  {
    WritesArePrefixes(c, s, p, e);
  }

  lemma EffectKeepsFilePrefixes(c: Params, content: Digest -> Bytes, s: State, p: Pid, effect: Effect, ph': Phase)
    requires Inv(c, s) && Prefixes(c, content, s) && Legal(c, s, p, effect)
    requires effect.SetFile? && s.Phase(p).Critical() ==>
      effect.content <= content(s.Phase(p).job.desc.digest)
    ensures FilePrefixes(content, s.Do(p, effect, ph'))
  {
    assert PhaseOK(c, s, s.Phase(p));
  }

  lemma StepKeepsFilePrefixes(c: Params, content: Digest -> Bytes, s: State, p: Pid, e: Event)
    requires c.unix && Inv(c, s) && Prefixes(c, content, s) && Step(c, s, p, e).Some?
    ensures FilePrefixes(content, Step(c, s, p, e).value)
  {
    var (effect, ph') := Act(c, s, s.Phase(p), e).value;
    StepIsLegal(c, s, p, e);
    if effect.SetFile? && s.Phase(p).Critical() {
      assert PhasePrefix(c, content, s.Phase(p));
      SetsPrefix(c, content, s, p, e);
    }
    EffectKeepsFilePrefixes(c, content, s, p, effect, ph');
  }

  lemma OnlyMoves(c: Params, s: State, p: Pid, e: Event, q: Pid)
    requires Step(c, s, p, e).Some?
    ensures Step(c, s, p, e).value.Phase(q) == if q == p then Act(c, s, s.Phase(p), e).value.1 else s.Phase(q)
  {
  }

  lemma StepKeepsPrefixes(c: Params, content: Digest -> Bytes, s: State, p: Pid, e: Event)
    requires c.unix && Inv(c, s) && Prefixes(c, content, s) && HonestEvent(c, content, s.Phase(p), e)
    requires Step(c, s, p, e).Some?
    ensures Prefixes(c, content, Step(c, s, p, e).value)
  {
    StepKeepsFilePrefixes(c, content, s, p, e);
    assert PhasePrefix(c, content, Act(c, s, s.Phase(p), e).value.1) by {
      assert PhaseOK(c, s, s.Phase(p));
      ActKeepsPhasePrefix(c, content, s, p, e);
    }
    forall q: Pid
      ensures PhasePrefix(c, content, Step(c, s, p, e).value.Phase(q))
    {
      OnlyMoves(c, s, p, e, q);
      assert PhasePrefix(c, content, s.Phase(q));
    }
  }

  /**
   * Under honest sources, however often fetches are cancelled, fail or crash and whichever source
   * each used: every partial file stays a prefix of its blob, and no fetch ever discards one.
   */
  lemma {:induction false} HonestRunsKeepPrefixes(
      c: Params, content: Digest -> Bytes, s: State, run: seq<(Pid, Event)>)
    requires c.unix && Inv(c, s) && Prefixes(c, content, s)
    requires Exec(c, s, run).Some? && HonestRun(c, content, s, run)
    ensures Prefixes(c, content, Exec(c, s, run).value)
    decreases |run|
  {
    if run != [] {
      StepKeepsPrefixes(c, content, s, run[0].0, run[0].1);
      StepKeepsInv(c, s, run[0].0, run[0].1);
      HonestRunsKeepPrefixes(c, content, Step(c, s, run[0].0, run[0].1).value, run[1..]);
    }
  }

  /** So the loop's exit test always succeeds, and what is renamed into blobs/ is the blob itself. */
  lemma HonestCommitIsTheBlob(c: Params, content: Digest -> Bytes, s: State, p: Pid)
    requires c.unix && Inv(c, s) && Prefixes(c, content, s)
    requires var ph := s.Phase(p); ph.Copying? && ph.done >= ph.job.desc.size
    ensures var ph := s.Phase(p);
      && Act(c, s, ph, Compare) == Some((Nothing, Matched(ph.job, ph.ino)))
      && ph.ino in s.files && s.files[ph.ino] == content(ph.job.desc.digest)
  {
    var ph := s.Phase(p);
    assert PhaseOK(c, s, ph) && PhasePrefix(c, content, ph);
    FullPrefix(ph.fed, content(ph.job.desc.digest));
  }

  // ---------------------------------------------------------------------------------------------
  // Reopening

  /** The process waits on, or just locked, a file that is no longer the one at the partial name. */
  predicate Stale(s: State, p: Pid, d: Digest) {
    var ph := s.Phase(p);
    && (ph.Waiting? || ph.Locked?)
    && ph.job.desc.digest == d
    && !(PartialName(d) in s.dir && s.dir[PartialName(d)] == ph.ino)
  }

  /** 1 when this event makes `p` give up the file it opened for `d` and open the name again. */
  function ReopenStep(c: Params, s: State, p: Pid, d: Digest, e: (Pid, Event)): nat {
    var ph := s.Phase(p);
    if e.0 == p && ph.Locked? && ph.job.desc.digest == d
      && Act(c, s, ph, e.1) == Some((Nothing, Closing(ph.job, ph.ino, Reopen))) then 1
    else 0
  }

  /** 1 when another process takes the partial name of `d` away. */
  function RemovalStep(c: Params, s: State, p: Pid, d: Digest, e: (Pid, Event)): nat {
    match Step(c, s, e.0, e.1)
    case None => 0
    case Some(s') => if e.0 != p && PartialName(d) in s.dir && PartialName(d) !in s'.dir then 1 else 0
  }

  function Reopens(c: Params, s: State, run: seq<(Pid, Event)>, p: Pid, d: Digest): nat
    decreases |run|
  {
    if run == [] then 0
    else
      match Step(c, s, run[0].0, run[0].1)
      case None => 0
      case Some(s') => ReopenStep(c, s, p, d, run[0]) + Reopens(c, s', run[1..], p, d)
  }

  function Removals(c: Params, s: State, run: seq<(Pid, Event)>, p: Pid, d: Digest): nat
    decreases |run|
  {
    if run == [] then 0
    else
      match Step(c, s, run[0].0, run[0].1)
      case None => 0
      case Some(s') => RemovalStep(c, s, p, d, run[0]) + Removals(c, s', run[1..], p, d)
  }

  function Owed(s: State, p: Pid, d: Digest): nat {
    if Stale(s, p, d) then 1 else 0
  }

  ghost predicate RemovesPartial(effect: Effect) {
    (effect.Unlink? && effect.name.PartialName?) || (effect.Move? && effect.from.PartialName?)
  }

  lemma StreamRemovesNothing(c: Params, s: State, ph: Phase, e: Event)
    requires (ph.Hashing? || ph.Copying? || ph.Writing?) && ActStream(c, s, ph, e).Some?
    ensures !RemovesPartial(ActStream(c, s, ph, e).value.0)
  {
  }

  lemma PutRemovesNoPartial(c: Params, s: State, ph: Phase, e: Event)
    requires ph.Puts() && ActPut(c, s, ph, e).Some?
    ensures !RemovesPartial(ActPut(c, s, ph, e).value.0)
  {
  }

  lemma PartialRemovedBy(c: Params, s: State, ph: Phase, e: Event)
    requires Act(c, s, ph, e).Some? && RemovesPartial(Act(c, s, ph, e).value.0)
    ensures e == Commit(true) || e == Discard(true)
  {
    if ph.Hashing? || ph.Copying? || ph.Writing? {
      if !e.Crash? && !e.Fail? {
        StreamRemovesNothing(c, s, ph, e);
      }
    } else if ph.Puts() {
      if !e.Crash? {
        PutRemovesNoPartial(c, s, ph, e);
      }
    }
  }

  /** A legal effect that takes the partial name away is a removal by the process that holds it. */
  lemma LegalRemoval(c: Params, s: State, q: Pid, effect: Effect, ph': Phase, d: Digest)
    requires Legal(c, s, q, effect) && PartialName(d) in s.dir
    ensures var s' := s.Do(q, effect, ph');
      (PartialName(d) in s'.dir && s'.dir[PartialName(d)] == s.dir[PartialName(d)])
      || (PartialName(d) !in s'.dir && RemovesPartial(effect) && s.Phase(q).Critical()
        && s.Phase(q).job.desc.digest == d)
  {
  }

  /** A partial name leaves the directory only by a commit or discard of the process that holds it. */
  lemma RemovalIsCounted(c: Params, s: State, q: Pid, e: Event, d: Digest)
    requires c.unix && Inv(c, s) && Step(c, s, q, e).Some? && PartialName(d) in s.dir
    ensures var ph, s' := s.Phase(q), Step(c, s, q, e).value;
      (PartialName(d) in s'.dir && s'.dir[PartialName(d)] == s.dir[PartialName(d)])
      || (PartialName(d) !in s'.dir && ph.Critical() && ph.job.desc.digest == d
        && (e == Commit(true) || e == Discard(true)))
  {
    var (effect, ph') := Act(c, s, s.Phase(q), e).value;
    StepIsLegal(c, s, q, e);
    LegalRemoval(c, s, q, effect, ph', d);
    if RemovesPartial(effect) {
      PartialRemovedBy(c, s, s.Phase(q), e);
    }
  }

  /** Whatever a process does that neither waits for a lock nor has just got one, it does not reopen. */
  lemma ElsewhereOwesNothing(c: Params, s: State, p: Pid, e: Event)
    requires Act(c, s, s.Phase(p), e).Some?
    requires !(s.Phase(p).Opening? || s.Phase(p).Waiting? || s.Phase(p).Locked?)
    ensures var ph' := Act(c, s, s.Phase(p), e).value.1; !ph'.Waiting? && !ph'.Locked?
  {
  }

  lemma OpeningOwesNothing(c: Params, s: State, p: Pid, d: Digest, e: Event)
    requires s.Phase(p).Opening? && Step(c, s, p, e).Some?
    ensures !Stale(Step(c, s, p, e).value, p, d)
  {
  }

  lemma WaitingOwesTheSame(c: Params, s: State, p: Pid, d: Digest, e: Event)
    requires s.Phase(p).Waiting? && Step(c, s, p, e).Some?
    ensures Stale(Step(c, s, p, e).value, p, d) ==> Stale(s, p, d)
  {
  }

  lemma LockedPays(c: Params, s: State, p: Pid, d: Digest, e: Event)
    requires s.Phase(p).Locked? && Step(c, s, p, e).Some?
    ensures !Stale(Step(c, s, p, e).value, p, d)
    ensures ReopenStep(c, s, p, d, (p, e)) == 1 ==> Stale(s, p, d)
  {
  }

  lemma OwnMovesOweNothing(c: Params, s: State, p: Pid, d: Digest, e: Event)
    requires Step(c, s, p, e).Some?
    ensures ReopenStep(c, s, p, d, (p, e)) + Owed(Step(c, s, p, e).value, p, d) <= Owed(s, p, d)
  {
    if s.Phase(p).Opening? {
      OpeningOwesNothing(c, s, p, d, e);
    } else if s.Phase(p).Waiting? {
      WaitingOwesTheSame(c, s, p, d, e);
    } else if s.Phase(p).Locked? {
      LockedPays(c, s, p, d, e);
    } else {
      ElsewhereOwesNothing(c, s, p, e);
    }
  }

  lemma ReopenPaidByRemoval(c: Params, s: State, p: Pid, d: Digest, e: (Pid, Event))
    requires c.unix && Inv(c, s) && Step(c, s, e.0, e.1).Some?
    ensures ReopenStep(c, s, p, d, e) + Owed(Step(c, s, e.0, e.1).value, p, d)
         <= RemovalStep(c, s, p, d, e) + Owed(s, p, d)
  {
    if e.0 == p {
      OwnMovesOweNothing(c, s, p, d, e.1);
    } else {
      assert Step(c, s, e.0, e.1).value.Phase(p) == s.Phase(p);
      if PartialName(d) in s.dir {
        RemovalIsCounted(c, s, e.0, e.1, d);
      }
    }
  }

  /** In any run a process reopens at most once per commit or discard by another process. */
  lemma {:induction false} ReopensBounded(c: Params, s: State, run: seq<(Pid, Event)>, p: Pid, d: Digest)
    requires c.unix && Inv(c, s) && Exec(c, s, run).Some?
    ensures Reopens(c, s, run, p, d) + Owed(Exec(c, s, run).value, p, d)
         <= Removals(c, s, run, p, d) + Owed(s, p, d)
    decreases |run|
  {
    if run != [] {
      ReopenPaidByRemoval(c, s, p, d, run[0]);
      StepKeepsInv(c, s, run[0].0, run[0].1);
      ReopensBounded(c, Step(c, s, run[0].0, run[0].1).value, run[1..], p, d);
    }
  }
}
