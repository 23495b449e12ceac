/**
 * Where flock is unavailable the lock does nothing. The digest is taken over the bytes a process
 * reads, not over the file, so other processes can rewrite the file after it was hashed: the final
 * digest check does not catch the collision.
 */
module BlobNoLock {
  import opened Content
  import opened BlobProtocol
  import opened BlobSafety

  lemma {:induction false} ExecThen(c: Params, s: State, run: seq<(Pid, Event)>, e: (Pid, Event))
    requires Exec(c, s, run).Some? && Step(c, Exec(c, s, run).value, e.0, e.1).Some?
    ensures Exec(c, s, run + [e]) == Step(c, Exec(c, s, run).value, e.0, e.1)
    decreases |run|
  {
    if run == [] {
      assert run + [e] == [e];
      assert Exec(c, Step(c, s, e.0, e.1).value, []) == Some(Step(c, s, e.0, e.1).value);
    } else {
      assert (run + [e])[1..] == run[1..] + [e];
      ExecThen(c, Step(c, s, run[0].0, run[0].1).value, run[1..], e);
    }
  }

  lemma ReachableStep(c: Params, s: State, p: Pid, e: Event)
    requires Reachable(c, s) && Step(c, s, p, e).Some?
    ensures Reachable(c, Step(c, s, p, e).value)
  {
    var init, run :| Init(c, init) && Exec(c, init, run) == Some(s);
    ExecThen(c, init, run, (p, e));
  }

  // ---------------------------------------------------------------------------------------------
  // Three processes and one partial file

  /** The only name is the partial file of `d`, with these bytes; processes 0, 1 and 2 are in these phases. */
  ghost predicate Shows(s: State, d: Digest, file: Bytes, ph: seq<Phase>) {
    && s.dir == map[PartialName(d) := 0] && 0 in s.files && s.files[0] == file
    && |ph| == 3 && forall p: Pid | p < 3 :: s.Phase(p) == ph[p]
  }

  function Fetching(d: Digest, size: nat): Job {
    Job(Desc(d, size), false)
  }

  lemma DoShows(s: State, d: Digest, file: Bytes, ph: seq<Phase>, p: Pid, effect: Effect, mine: Phase)
    requires Shows(s, d, file, ph) && p < 3
    requires effect.Nothing? || (effect.SetFile? && effect.node == 0)
    ensures Shows(s.Do(p, effect, mine), d, if effect.SetFile? then effect.content else file, ph[p := mine])
  {
  }

  /** One step of process `p` that touches nothing but the file. */
  lemma Hop(c: Params, s: State, d: Digest, file: Bytes, ph: seq<Phase>, p: Pid, e: Event, effect: Effect, mine: Phase)
    returns (s': State)
    requires Reachable(c, s) && Shows(s, d, file, ph) && p < 3
    requires Act(c, s, ph[p], e) == Some((effect, mine))
    requires effect.Nothing? || (effect.SetFile? && effect.node == 0)
    ensures Reachable(c, s') && Shows(s', d, if effect.SetFile? then effect.content else file, ph[p := mine])
  {
    s' := s.Do(p, effect, mine);
    DoShows(s, d, file, ph, p, effect, mine);
    assert Step(c, s, p, e) == Some(s');
    ReachableStep(c, s, p, e);
  }

  /** Process 0 begins a fetch in an empty cache and creates the partial file. */
  lemma FirstOpens(c: Params, d: Digest, size: nat) returns (s: State)
    ensures Reachable(c, s) && Shows(s, d, [], [Waiting(Fetching(d, size), 0), Idle, Idle])
  {
    var s0 := State(map[], map[], map[], map[]);
    assert Init(c, s0) && Exec(c, s0, []) == Some(s0);
    var job := Fetching(d, size);
    ReachableStep(c, s0, 0, FetchBegin(job.desc));
    var s1 := s0.Do(0, Nothing, Opening(job));
    ReachableStep(c, s1, 0, OpenPartial(0));
    s := s1.Do(0, MakeFile(PartialName(d), 0), Waiting(job, 0));
  }

  lemma Opens(c: Params, s0: State, d: Digest, file: Bytes, ph: seq<Phase>, p: Pid, size: nat) returns (s: State)
    requires Reachable(c, s0) && Shows(s0, d, file, ph) && p < 3 && ph[p] == Idle
    ensures Reachable(c, s) && Shows(s, d, file, ph[p := Waiting(Fetching(d, size), 0)])
  {
    var job := Fetching(d, size);
    s := Hop(c, s0, d, file, ph, p, FetchBegin(job.desc), Nothing, Opening(job));
    s := Hop(c, s, d, file, ph[p := Opening(job)], p, OpenPartial(0), Nothing, Waiting(job, 0));
    assert ph[p := Opening(job)][p := Waiting(job, 0)] == ph[p := Waiting(job, 0)];
  }

  lemma TakesNoLock(c: Params, s0: State, d: Digest, file: Bytes, ph: seq<Phase>, p: Pid, job: Job) returns (s: State)
    requires !c.unix && Reachable(c, s0) && Shows(s0, d, file, ph) && p < 3
    requires job.desc.digest == d && ph[p] == Waiting(job, 0)
    ensures Reachable(c, s) && Shows(s, d, file, ph[p := Checked(job, 0)])
  {
    s := Hop(c, s0, d, file, ph, p, Flock, Nothing, Locked(job, 0));
    s := Hop(c, s, d, file, ph[p := Locked(job, 0)], p, SameFile, Nothing, Checked(job, 0));
    assert ph[p := Locked(job, 0)][p := Checked(job, 0)] == ph[p := Checked(job, 0)];
  }

  lemma MissesBlob(c: Params, s0: State, d: Digest, file: Bytes, ph: seq<Phase>, p: Pid, job: Job) returns (s: State)
    requires !c.unix && Reachable(c, s0) && Shows(s0, d, file, ph) && p < 3
    requires job.desc.digest == d && ph[p] == Waiting(job, 0)
    ensures Reachable(c, s) && Shows(s, d, file, ph[p := Sizing(job, 0)])
  {
    s := TakesNoLock(c, s0, d, file, ph, p, job);
    s := Hop(c, s, d, file, ph[p := Checked(job, 0)], p, CheckHas, Nothing, Sizing(job, 0));
    assert ph[p := Checked(job, 0)][p := Sizing(job, 0)] == ph[p := Sizing(job, 0)];
  }

  lemma StatsEmpty(c: Params, s0: State, d: Digest, ph: seq<Phase>, p: Pid, job: Job) returns (s: State)
    requires Reachable(c, s0) && Shows(s0, d, [], ph) && p < 3 && ph[p] == Sizing(job, 0)
    ensures Reachable(c, s) && Shows(s, d, [], ph[p := Hashing(job, 0, 0, [])])
  {
    s := Hop(c, s0, d, [], ph, p, StatSize, Nothing, Hashing(job, 0, 0, []));
  }

  lemma FindsEmpty(c: Params, s0: State, d: Digest, ph: seq<Phase>, p: Pid, job: Job) returns (s: State)
    requires Reachable(c, s0) && Shows(s0, d, [], ph) && p < 3 && ph[p] == Sizing(job, 0)
    ensures Reachable(c, s) && Shows(s, d, [], ph[p := Copying(job, 0, false, 0, [])])
  {
    var h := Hashing(job, 0, 0, []);
    s := StatsEmpty(c, s0, d, ph, p, job);
    s := Hop(c, s, d, [], ph[p := h], p, HashDone, Nothing, Copying(job, 0, false, 0, []));
    assert ph[p := h][p := Copying(job, 0, false, 0, [])] == ph[p := Copying(job, 0, false, 0, [])];
  }

  /** From its open, empty file a process walks to the point where it asks the source. */
  lemma ToSource(c: Params, s0: State, d: Digest, ph: seq<Phase>, p: Pid, job: Job) returns (s: State)
    requires !c.unix && Reachable(c, s0) && Shows(s0, d, [], ph) && p < 3
    requires job.desc.digest == d && ph[p] == Waiting(job, 0)
    ensures Reachable(c, s) && Shows(s, d, [], ph[p := Copying(job, 0, false, 0, [])])
  {
    s := MissesBlob(c, s0, d, [], ph, p, job);
    s := FindsEmpty(c, s, d, ph[p := Sizing(job, 0)], p, job);
    assert ph[p := Sizing(job, 0)][p := Copying(job, 0, false, 0, [])] == ph[p := Copying(job, 0, false, 0, [])];
  }

  lemma PutsChunk(c: Params, s0: State, d: Digest, file: Bytes, ph: seq<Phase>, p: Pid, job: Job, data: Bytes)
    returns (s: State)
    requires Reachable(c, s0) && Shows(s0, d, file, ph) && p < 3 && |file| <= |data| && data != []
    requires ph[p] == Writing(job, 0, false, 0, [], data, 0, NoErr)
    ensures Reachable(c, s) && Shows(s, d, data, ph[p := Writing(job, 0, false, 0, [], data, |data|, NoErr)])
  {
    assert data[0..|data|] == data;
    assert WriteAt(file, 0, data) == data;
    s := Hop(c, s0, d, file, ph, p, Write(|data|), SetFile(0, data),
      Writing(job, 0, false, 0, [], data, |data|, NoErr));
  }

  lemma EndsChunk(c: Params, s0: State, d: Digest, ph: seq<Phase>, p: Pid, job: Job, data: Bytes) returns (s: State)
    requires Reachable(c, s0) && Shows(s0, d, data, ph) && p < 3
    requires ph[p] == Writing(job, 0, false, 0, [], data, |data|, NoErr)
    ensures Reachable(c, s) && Shows(s, d, data, ph[p := Copying(job, 0, false, |data|, data)])
  {
    assert [] + data == data;
    s := Hop(c, s0, d, data, ph, p, WriteDone, Nothing, Copying(job, 0, false, |data|, data));
  }

  lemma Reads(c: Params, s0: State, d: Digest, file: Bytes, ph: seq<Phase>, p: Pid, job: Job, data: Bytes)
    returns (s: State)
    requires Reachable(c, s0) && Shows(s0, d, file, ph) && p < 3 && 0 < |data| <= job.desc.size
    requires ph[p] == Copying(job, 0, false, 0, [])
    ensures Reachable(c, s) && Shows(s, d, file, ph[p := Writing(job, 0, false, 0, [], data, 0, NoErr)])
  {
    s := Hop(c, s0, d, file, ph, p, SrcRead(data, NoErr), Nothing, Writing(job, 0, false, 0, [], data, 0, NoErr));
  }

  /** It reads what its source serves and writes it over whatever the file holds. */
  lemma Overwrites(c: Params, s0: State, d: Digest, file: Bytes, ph: seq<Phase>, p: Pid, job: Job, data: Bytes)
    returns (s: State)
    requires Reachable(c, s0) && Shows(s0, d, file, ph) && p < 3 && |file| <= |data| == job.desc.size
    requires ph[p] == Copying(job, 0, false, 0, [])
    ensures Reachable(c, s) && Shows(s, d, data, ph[p := Copying(job, 0, false, |data|, data)])
  {
    if data == [] {
      s := s0;
      assert ph[p := Copying(job, 0, false, 0, [])] == ph;
    } else {
      var w0, w1 := Writing(job, 0, false, 0, [], data, 0, NoErr), Writing(job, 0, false, 0, [], data, |data|, NoErr);
      s := Reads(c, s0, d, file, ph, p, job, data);
      s := PutsChunk(c, s, d, file, ph[p := w0], p, job, data);
      assert ph[p := w0][p := w1] == ph[p := w1];
      s := EndsChunk(c, s, d, ph[p := w1], p, job, data);
      assert ph[p := w1][p := Copying(job, 0, false, |data|, data)] == ph[p := Copying(job, 0, false, |data|, data)];
    }
  }

  lemma FindsTooLong(c: Params, s0: State, d: Digest, file: Bytes, ph: seq<Phase>, p: Pid, job: Job) returns (s: State)
    requires Reachable(c, s0) && Shows(s0, d, file, ph) && p < 3 && job.desc.size < |file| && ph[p] == Sizing(job, 0)
    ensures Reachable(c, s) && Shows(s, d, file, ph[p := Oversize(job, 0)])
  {
    s := Hop(c, s0, d, file, ph, p, StatSize, Nothing, Oversize(job, 0));
  }

  lemma Empties(c: Params, s0: State, d: Digest, file: Bytes, ph: seq<Phase>, p: Pid, job: Job) returns (s: State)
    requires Reachable(c, s0) && Shows(s0, d, file, ph) && p < 3 && job.desc.size < |file| && ph[p] == Sizing(job, 0)
    ensures Reachable(c, s) && Shows(s, d, [], ph[p := Hashing(job, 0, 0, [])])
  {
    s := FindsTooLong(c, s0, d, file, ph, p, job);
    s := Hop(c, s, d, file, ph[p := Oversize(job, 0)], p, Truncate, SetFile(0, []), Hashing(job, 0, 0, []));
    assert ph[p := Oversize(job, 0)][p := Hashing(job, 0, 0, [])] == ph[p := Hashing(job, 0, 0, [])];
  }

  /** A fetch told that the blob is empty finds the file too long and truncates it. */
  lemma Truncates(c: Params, s0: State, d: Digest, file: Bytes, ph: seq<Phase>) returns (s: State, mine: Phase)
    requires !c.unix && Reachable(c, s0) && Shows(s0, d, file, ph) && ph[2] == Idle
    ensures Reachable(c, s) && Shows(s, d, [], ph[2 := mine])
  {
    if file == [] {
      s, mine := s0, Idle;
      assert ph[2 := Idle] == ph;
    } else {
      var job := Fetching(d, 0);
      s := Opens(c, s0, d, file, ph, 2, 0);
      s := MissesBlob(c, s, d, file, ph[2 := Waiting(job, 0)], 2, job);
      assert ph[2 := Waiting(job, 0)][2 := Sizing(job, 0)] == ph[2 := Sizing(job, 0)];
      s := Empties(c, s, d, file, ph[2 := Sizing(job, 0)], 2, job);
      mine := Hashing(job, 0, 0, []);
      assert ph[2 := Sizing(job, 0)][2 := mine] == ph[2 := mine];
    }
  }

  // ---------------------------------------------------------------------------------------------

  /** A fetch stands before its first read of an empty file. */
  lemma FirstAsks(c: Params, d: Digest, m: nat) returns (s: State)
    requires !c.unix
    ensures Reachable(c, s) && Shows(s, d, [], [Copying(Fetching(d, m), 0, false, 0, []), Idle, Idle])
  {
    var a := Copying(Fetching(d, m), 0, false, 0, []);
    s := FirstOpens(c, d, m);
    s := ToSource(c, s, d, [Waiting(Fetching(d, m), 0), Idle, Idle], 0, Fetching(d, m));
    assert [Waiting(Fetching(d, m), 0), Idle, Idle][0 := a] == [a, Idle, Idle];
  }

  /** Two fetches of one digest both stand there. */
  lemma BothAsk(c: Params, d: Digest, m: nat, n: nat) returns (s: State)
    requires !c.unix
    ensures Reachable(c, s)
    ensures Shows(s, d, [], [Copying(Fetching(d, m), 0, false, 0, []), Copying(Fetching(d, n), 0, false, 0, []), Idle])
  {
    var a, b := Copying(Fetching(d, m), 0, false, 0, []), Copying(Fetching(d, n), 0, false, 0, []);
    s := FirstAsks(c, d, m);
    s := Opens(c, s, d, [], [a, Idle, Idle], 1, n);
    assert [a, Idle, Idle][1 := Waiting(Fetching(d, n), 0)] == [a, Waiting(Fetching(d, n), 0), Idle];
    s := ToSource(c, s, d, [a, Waiting(Fetching(d, n), 0), Idle], 1, Fetching(d, n));
    assert [a, Waiting(Fetching(d, n), 0), Idle][1 := b] == [a, b, Idle];
  }

  lemma HonestReads(c: Params, good: Bytes, n: nat) returns (s: State)
    requires !c.unix
    ensures var d := c.hash(good);
      Reachable(c, s)
      && Shows(s, d, good, [
        Copying(Fetching(d, |good|), 0, false, |good|, good), Copying(Fetching(d, n), 0, false, 0, []), Idle])
  {
    var d := c.hash(good);
    var job, b := Fetching(d, |good|), Copying(Fetching(d, n), 0, false, 0, []);
    var ph := [Copying(job, 0, false, 0, []), b, Idle];
    s := BothAsk(c, d, |good|, n);
    s := Overwrites(c, s, d, [], ph, 0, job, good);
    assert ph[0 := Copying(job, 0, false, |good|, good)] == [Copying(job, 0, false, |good|, good), b, Idle];
  }

  /** The honest fetch has the whole blob hashed and stands before its rename. */
  lemma HonestVerifies(c: Params, good: Bytes, n: nat) returns (s: State)
    requires !c.unix
    ensures var d := c.hash(good);
      Reachable(c, s)
      && Shows(s, d, good, [Matched(Fetching(d, |good|), 0), Copying(Fetching(d, n), 0, false, 0, []), Idle])
  {
    var d := c.hash(good);
    var job, b := Fetching(d, |good|), Copying(Fetching(d, n), 0, false, 0, []);
    var ph := [Copying(job, 0, false, |good|, good), b, Idle];
    s := HonestReads(c, good, n);
    s := Hop(c, s, d, good, ph, 0, Compare, Nothing, Matched(job, 0));
    assert ph[0 := Matched(job, 0)] == [Matched(job, 0), b, Idle];
  }

  /** A third fetch empties the file, the second writes `bad`; the first still stands before its rename. */
  lemma BadOverwrites(c: Params, good: Bytes, bad: Bytes) returns (s: State, ph: seq<Phase>)
    requires !c.unix
    ensures Reachable(c, s) && Shows(s, c.hash(good), bad, ph) && ph[0] == Matched(Fetching(c.hash(good), |good|), 0)
  {
    var d := c.hash(good);
    var a, job := Matched(Fetching(d, |good|), 0), Fetching(d, |bad|);
    ph := [a, Copying(job, 0, false, 0, []), Idle];
    s := HonestVerifies(c, good, |bad|);
    var mine;
    s, mine := Truncates(c, s, d, good, ph);
    ph := ph[2 := mine];
    s := Overwrites(c, s, d, [], ph, 1, job, bad);
    ph := ph[1 := Copying(job, 0, false, |bad|, bad)];
  }

  /**
   * Without a real lock blob integrity fails for any two contents the hash tells apart: an honest fetch
   * of `good` beside fetches of the same digest from a bad source leaves `bad` under the name of `good`.
   */
  lemma NoOpLockBreaksIntegrity(c: Params, good: Bytes, bad: Bytes) returns (s: State)
    requires !c.unix && c.hash(good) != c.hash(bad)
    ensures Reachable(c, s)
    ensures BlobName(c.hash(good)) in s.dir && s.dir[BlobName(c.hash(good))] in s.files
    ensures s.files[s.dir[BlobName(c.hash(good))]] == bad
    ensures !BlobsVerified(c, s)
  {
    var d := c.hash(good);
    var ph;
    s, ph := BadOverwrites(c, good, bad);
    ReachableStep(c, s, 0, Commit(true));
    s := s.Do(0, Move(PartialName(d), BlobName(d)), Closing(Fetching(d, |good|), 0, Finish));
  }

  // ---------------------------------------------------------------------------------------------
  // Exactly when integrity holds

  /** With a hash that names everything alike, whatever is committed or about to be has that one name. */
  ghost predicate OneName(d0: Digest, s: State) {
    && (forall d | BlobName(d) in s.dir :: d == d0)
    && forall p: Pid :: PhaseNames(d0, s.Phase(p))
  }

  ghost predicate PhaseNames(d0: Digest, ph: Phase) {
    (ph.Matched? ==> ph.job.desc.digest == d0) && (ph.Spooled? || ph.Renaming? ==> ph.dgst == d0)
  }

  /** A step makes no blob's name, and moves to none but this digest's. */
  ghost predicate StepNames(d0: Digest, step: (Effect, Phase)) {
    && PhaseNames(d0, step.1)
    && (step.0.MakeFile? ==> !step.0.name.BlobName?)
    && (step.0.Move? ==> step.0.to == BlobName(d0))
  }

  lemma StreamNames(c: Params, d0: Digest, s: State, ph: Phase, e: Event)
    requires PhaseNames(d0, ph) && (ph.Hashing? || ph.Copying? || ph.Writing?)
    requires (forall b :: c.hash(b) == d0) && ActStream(c, s, ph, e).Some?
    ensures StepNames(d0, ActStream(c, s, ph, e).value)
  {
  }

  lemma PutNames(c: Params, d0: Digest, s: State, ph: Phase, e: Event)
    requires PhaseNames(d0, ph) && ph.Puts()
    requires (forall b :: c.hash(b) == d0) && ActPut(c, s, ph, e).Some?
    ensures StepNames(d0, ActPut(c, s, ph, e).value)
  {
  }

  lemma ActNames(c: Params, d0: Digest, s: State, ph: Phase, e: Event)
    requires (forall b :: c.hash(b) == d0) && PhaseNames(d0, ph) && Act(c, s, ph, e).Some?
    ensures StepNames(d0, Act(c, s, ph, e).value)
  {
    if !e.Crash? {
      if ph.Puts() {
        PutNames(c, d0, s, ph, e);
      } else if !e.Fail? && (ph.Hashing? || ph.Copying? || ph.Writing?) {
        StreamNames(c, d0, s, ph, e);
      }
    }
  }

  lemma DoNames(d0: Digest, s: State, p: Pid, effect: Effect, ph': Phase)
    requires OneName(d0, s) && PhaseNames(d0, ph')
    requires effect.MakeFile? ==> !effect.name.BlobName?
    requires effect.Move? ==> effect.to == BlobName(d0)
    ensures OneName(d0, s.Do(p, effect, ph'))
  {
    forall q: Pid ensures PhaseNames(d0, s.Do(p, effect, ph').Phase(q)) {
      assert PhaseNames(d0, s.Phase(q));
    }
  }

  lemma {:induction false} RunKeepsOneName(c: Params, d0: Digest, s: State, run: seq<(Pid, Event)>)
    requires (forall b :: c.hash(b) == d0) && OneName(d0, s) && Exec(c, s, run).Some?
    ensures OneName(d0, Exec(c, s, run).value)
    decreases |run|
  {
    if run != [] {
      var (effect, ph') := Act(c, s, s.Phase(run[0].0), run[0].1).value;
      assert PhaseNames(d0, s.Phase(run[0].0));
      ActNames(c, d0, s, s.Phase(run[0].0), run[0].1);
      DoNames(d0, s, run[0].0, effect, ph');
      RunKeepsOneName(c, d0, Step(c, s, run[0].0, run[0].1).value, run[1..]);
    }
  }

  lemma ConstantHashVerifies(c: Params, s: State)
    requires Reachable(c, s) && forall a, b :: c.hash(a) == c.hash(b)
    ensures BlobsVerified(c, s)
  {
    var d0 := c.hash([]);
    var init, run :| Init(c, init) && Exec(c, init, run) == Some(s);
    forall b ensures c.hash(b) == d0 {
    }
    forall d | BlobName(d) in init.dir ensures d == d0 {
      assert init.dir[BlobName(d)] in init.files;
    }
    RunKeepsOneName(c, d0, init, run);
  }

  /**
   * Blob integrity holds in every reachable state exactly when the lock is a real one, or the hash
   * tells no two contents apart.
   */
  lemma IntegrityNeedsTheLock(c: Params)
    ensures (forall s | Reachable(c, s) :: BlobsVerified(c, s)) <==> (c.unix || forall a, b :: c.hash(a) == c.hash(b))
  {
    if c.unix {
      forall s | Reachable(c, s) ensures BlobsVerified(c, s) {
        ReachableInv(c, s);
      }
    } else if forall a, b :: c.hash(a) == c.hash(b) {
      forall s | Reachable(c, s) ensures BlobsVerified(c, s) {
        ConstantHashVerifies(c, s);
      }
    } else {
      var good, bad :| c.hash(good) != c.hash(bad);
      var s := NoOpLockBreaksIntegrity(c, good, bad);
    }
  }
}
