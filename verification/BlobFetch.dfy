/** A whole Fetch of one process, both attempts, seen as a run of the blob cache machine. */
module BlobFetch {
  import opened Content
  import B = BlobProtocol
  import opened BlobCache
  import opened BlobLoop

  type Run = seq<(B.Pid, B.Event)>

  /** The run consists of steps of `p` only and leads from one state to the other. */
  ghost predicate Runs(c: B.Params, s: B.State, p: B.Pid, run: Run, s': B.State) {
    B.Exec(c, s, run) == Some(s') && forall i | 0 <= i < |run| :: run[i].0 == p
  }

  lemma RunsOne(c: B.Params, s: B.State, p: B.Pid, e: B.Event, s': B.State) returns (run: Run)
    requires B.Step(c, s, p, e) == Some(s')
    ensures Runs(c, s, p, run, s')
  {
    run := [(p, e)];
    OneStep(c, s, (p, e));
  }

  lemma RunsThen(c: B.Params, s: B.State, p: B.Pid, a: Run, mid: B.State, b: Run, s': B.State) returns (run: Run)
    requires Runs(c, s, p, a, mid) && Runs(c, mid, p, b, s')
    ensures Runs(c, s, p, run, s')
  {
    run := a + b;
    ExecSplit(c, s, a, b);
  }

  lemma RunsStep(c: B.Params, s: B.State, p: B.Pid, a: Run, mid: B.State, e: B.Event, s': B.State) returns (run: Run)
    requires Runs(c, s, p, a, mid) && B.Step(c, mid, p, e) == Some(s')
    ensures Runs(c, s, p, run, s')
  {
    var b := RunsOne(c, mid, p, e, s');
    run := RunsThen(c, s, p, a, mid, b, s');
  }

  // ---------------------------------------------------------------------------------------------
  // The process and its file

  /** The process works on its locked file, named as the partial file of `d`; all else is as in `s`. */
  function Held(s: B.State, p: B.Pid, d: Digest, ino: B.Ino, content: Bytes, ph: B.Phase): B.State {
    B.State(s.files[ino := content], s.dir[B.PartialName(d) := ino], s.locks[ino := p], s.procs[p := ph])
  }

  /** It has closed the file, and this is the directory it leaves. */
  function Closed(s: B.State, p: B.Pid, ino: B.Ino, content: Bytes, dir: map<B.Name, B.Ino>, ph: B.Phase): B.State {
    B.State(s.files[ino := content], dir, s.locks, s.procs[p := ph])
  }

  /** A step that at most writes the file. */
  lemma HeldStep(
      c: B.Params, s: B.State, p: B.Pid, d: Digest, ino: B.Ino, content: Bytes, ph: B.Phase, e: B.Event,
      content': Bytes, ph': B.Phase)
    requires B.Act(c, Held(s, p, d, ino, content, ph), ph, e)
      == Some((if content' == content then B.Nothing else B.SetFile(ino, content'), ph'))
    ensures B.Step(c, Held(s, p, d, ino, content, ph), p, e) == Some(Held(s, p, d, ino, content', ph'))
  {
    assert s.files[ino := content][ino := content'] == s.files[ino := content'];
    assert s.procs[p := ph][p := ph'] == s.procs[p := ph'];
  }

  lemma HeldMoved(
      s: B.State, p: B.Pid, d: Digest, ino: B.Ino, content: Bytes, ph: B.Phase, content': Bytes, ph': B.Phase)
    ensures Moved(Held(s, p, d, ino, content, ph), p, ino, content', ph') == Held(s, p, d, ino, content', ph')
  {
  }

  // ---------------------------------------------------------------------------------------------
  // Before the loop

  /** The file the process opens, and what it holds. */
  function Opened(s: B.State, d: Digest, node: B.Ino): B.Ino {
    if B.PartialName(d) in s.dir then s.dir[B.PartialName(d)] else node
  }

  function FileAt(s: B.State, n: B.Name): Option<Bytes> {
    if n in s.dir && s.dir[n] in s.files then Some(s.files[s.dir[n]]) else None
  }

  function Holding(s: B.State, d: Digest): Bytes {
    match FileAt(s, B.PartialName(d)) case None => [] case Some(b) => b
  }

  /** A process about to open the partial file, which nobody else has locked; `node` is free. */
  ghost predicate Ready(c: B.Params, s: B.State, p: B.Pid, job: B.Job, node: B.Ino) {
    && c.unix && B.NamesOK(s) && p in s.procs && s.procs[p] == B.Opening(job)
    && node !in s.files && Opened(s, job.desc.digest, node) !in s.locks
  }

  lemma OpensFile(c: B.Params, s: B.State, p: B.Pid, job: B.Job, node: B.Ino) returns (run: Run)
    requires Ready(c, s, p, job, node)
    ensures var d := job.desc.digest; var ino := Opened(s, d, node);
      Runs(c, s, p, run, Held(s, p, d, ino, Holding(s, d), B.Locked(job, ino)))
  {
    var d := job.desc.digest;
    var ino, name := Opened(s, d, node), B.PartialName(d);
    var open := Closed(s, p, ino, Holding(s, d), s.dir[name := ino], B.Waiting(job, ino));
    if name in s.dir {
      assert s.dir[name := ino] == s.dir && s.files[ino := Holding(s, d)] == s.files;
    }
    run := RunsOne(c, s, p, B.OpenPartial(node), open);
    assert s.procs[p := B.Waiting(job, ino)][p := B.Locked(job, ino)] == s.procs[p := B.Locked(job, ino)];
    run := RunsStep(c, s, p, run, open, B.Flock, Held(s, p, d, ino, Holding(s, d), B.Locked(job, ino)));
  }

  lemma ChecksFile(c: B.Params, s: B.State, p: B.Pid, job: B.Job, node: B.Ino) returns (run: Run)
    requires Ready(c, s, p, job, node)
    ensures var d := job.desc.digest; var ino := Opened(s, d, node);
      Runs(c, s, p, run, Held(s, p, d, ino, Holding(s, d), B.Checked(job, ino)))
  {
    var d := job.desc.digest;
    var ino, content := Opened(s, d, node), Holding(s, d);
    run := OpensFile(c, s, p, job, node);
    HeldStep(c, s, p, d, ino, content, B.Locked(job, ino), B.SameFile, content, B.Checked(job, ino));
    run := RunsStep(c, s, p, run, Held(s, p, d, ino, content, B.Locked(job, ino)), B.SameFile,
      Held(s, p, d, ino, content, B.Checked(job, ino)));
  }

  lemma AsksSize(
      c: B.Params, s: B.State, p: B.Pid, d: Digest, ino: B.Ino, content: Bytes, job: B.Job)
    returns (run: Run)
    requires job.desc.digest == d && B.BlobName(d) !in s.dir
    ensures Runs(c, Held(s, p, d, ino, content, B.Checked(job, ino)), p, run,
      Held(s, p, d, ino, content, B.Sizing(job, ino)))
  {
    HeldStep(c, s, p, d, ino, content, B.Checked(job, ino), B.CheckHas, content, B.Sizing(job, ino));
    run := RunsOne(c, Held(s, p, d, ino, content, B.Checked(job, ino)), p, B.CheckHas,
      Held(s, p, d, ino, content, B.Sizing(job, ino)));
  }

  /** A file longer than the blob starts over. */
  lemma Empties(c: B.Params, s: B.State, p: B.Pid, d: Digest, ino: B.Ino, content: Bytes, job: B.Job) returns (run: Run)
    requires |content| > job.desc.size
    ensures Runs(c, Held(s, p, d, ino, content, B.Sizing(job, ino)), p, run,
      Held(s, p, d, ino, [], B.Hashing(job, ino, 0, [])))
  {
    var from, big := Held(s, p, d, ino, content, B.Sizing(job, ino)), Held(s, p, d, ino, content, B.Oversize(job, ino));
    HeldStep(c, s, p, d, ino, content, B.Sizing(job, ino), B.StatSize, content, B.Oversize(job, ino));
    run := RunsOne(c, from, p, B.StatSize, big);
    HeldStep(c, s, p, d, ino, content, B.Oversize(job, ino), B.Truncate, [], B.Hashing(job, ino, 0, []));
    run := RunsStep(c, from, p, run, big, B.Truncate, Held(s, p, d, ino, [], B.Hashing(job, ino, 0, [])));
  }

  /** From the check that the blob is absent to the decision what to reuse. */
  lemma SizesFile(
      c: B.Params, s: B.State, p: B.Pid, d: Digest, ino: B.Ino, content: Bytes, job: B.Job)
    returns (run: Run)
    requires job.desc.digest == d && B.BlobName(d) !in s.dir
    ensures var saved := Reused(Some(content), job.desc.size);
      Runs(c, Held(s, p, d, ino, content, B.Checked(job, ino)), p, run,
        Held(s, p, d, ino, saved, B.Hashing(job, ino, |saved|, [])))
  {
    var from := Held(s, p, d, ino, content, B.Checked(job, ino));
    var sizing := Held(s, p, d, ino, content, B.Sizing(job, ino));
    run := AsksSize(c, s, p, d, ino, content, job);
    if |content| <= job.desc.size {
      var ph := B.Hashing(job, ino, |content|, []);
      HeldStep(c, s, p, d, ino, content, B.Sizing(job, ino), B.StatSize, content, ph);
      run := RunsStep(c, from, p, run, sizing, B.StatSize, Held(s, p, d, ino, content, ph));
    } else {
      var next := Empties(c, s, p, d, ino, content, job);
      run := RunsThen(c, from, p, run, sizing, next, Held(s, p, d, ino, [], B.Hashing(job, ino, 0, [])));
    }
  }

  /** What is reused goes to the digester. */
  lemma HashesPrefix(
      c: B.Params, s: B.State, p: B.Pid, d: Digest, ino: B.Ino, saved: Bytes, job: B.Job)
    returns (run: Run)
    requires |saved| <= job.desc.size
    ensures Runs(c, Held(s, p, d, ino, saved, B.Hashing(job, ino, |saved|, [])), p, run,
      Held(s, p, d, ino, saved, B.Copying(job, ino, saved != [], |saved|, saved)))
  {
    var none, all := B.Hashing(job, ino, |saved|, []), B.Hashing(job, ino, |saved|, saved);
    var from, end := Held(s, p, d, ino, saved, none), B.Copying(job, ino, saved != [], |saved|, saved);
    HeldStep(c, s, p, d, ino, saved, all, B.HashDone, saved, end);
    if saved == [] {
      run := RunsOne(c, from, p, B.HashDone, Held(s, p, d, ino, saved, end));
    } else {
      assert [] + saved[0..|saved|] == saved;
      HeldStep(c, s, p, d, ino, saved, none, B.HashRead(|saved|), saved, all);
      run := RunsOne(c, from, p, B.HashRead(|saved|), Held(s, p, d, ino, saved, all));
      run := RunsStep(c, from, p, run, Held(s, p, d, ino, saved, all), B.HashDone, Held(s, p, d, ino, saved, end));
    }
  }

  // ---------------------------------------------------------------------------------------------
  // A file that is no longer the one at its name

  ghost predicate AtName(s: B.State, d: Digest, ino: B.Ino) {
    B.PartialName(d) in s.dir && s.dir[B.PartialName(d)] == ino
  }

  lemma {:induction false} OthersKeepPhase(c: B.Params, s: B.State, p: B.Pid, others: Run)
    requires B.Exec(c, s, others).Some? && forall i | 0 <= i < |others| :: others[i].0 != p
    ensures B.Exec(c, s, others).value.Phase(p) == s.Phase(p)
    decreases |others|
  {
    if others != [] {
      OthersKeepPhase(c, B.Step(c, s, others[0].0, others[0].1).value, p, others[1..]);
    }
  }

  /** The look at the name after the lock is granted keeps the file there and gives up any other. */
  lemma LooksAtName(c: B.Params, s: B.State, p: B.Pid, job: B.Job, ino: B.Ino)
    requires s.Phase(p) == B.Locked(job, ino)
    ensures B.Step(c, s, p, B.SameFile).Some?
    ensures B.Step(c, s, p, B.SameFile).value.Phase(p) ==
      if AtName(s, job.desc.digest, ino) then B.Checked(job, ino) else B.Closing(job, ino, B.Reopen)
  {
  }

  lemma OnlyCloses(c: B.Params, s: B.State, p: B.Pid, job: B.Job, ino: B.Ino, e: B.Event)
    requires s.Phase(p) == B.Closing(job, ino, B.Reopen)
    ensures B.Step(c, s, p, e).Some? <==> e.Close? || e.Crash?
    ensures e.Close? ==> B.Step(c, s, p, e).value.Phase(p) == B.Opening(job)
  {
  }

  /**
   * A waiter that wakes up with a file that is no longer at its name does not give up: whatever the
   * others do meanwhile, its only way on short of a crash is to close it and open the name again.
   */
  lemma StaleIsReopened(c: B.Params, s: B.State, p: B.Pid, job: B.Job, ino: B.Ino, others: Run, e: B.Event)
    requires s.Phase(p) == B.Locked(job, ino) && !AtName(s, job.desc.digest, ino)
    requires B.Step(c, s, p, B.SameFile).Some? && B.Exec(c, B.Step(c, s, p, B.SameFile).value, others).Some?
    requires forall i | 0 <= i < |others| :: others[i].0 != p
    ensures var mid := B.Exec(c, B.Step(c, s, p, B.SameFile).value, others).value;
      && (B.Step(c, mid, p, e).Some? <==> e.Close? || e.Crash?)
      && (e.Close? ==> B.Step(c, mid, p, e).value.Phase(p) == B.Opening(job))
  {
    var looked := B.Step(c, s, p, B.SameFile).value;
    LooksAtName(c, s, p, job, ino);
    OthersKeepPhase(c, looked, p, others);
    OnlyCloses(c, B.Exec(c, looked, others).value, p, job, ino, e);
  }

  /** Left alone it gets to hold the file that is at the name now, a new one if there is none. */
  lemma StaleGetsCurrent(c: B.Params, s: B.State, p: B.Pid, job: B.Job, ino: B.Ino, node: B.Ino)
    returns (run: Run, s': B.State)
    requires c.unix && B.NamesOK(s) && p in s.procs && s.procs[p] == B.Locked(job, ino)
    requires ino in s.locks && s.locks[ino] == p && !AtName(s, job.desc.digest, ino)
    requires node !in s.files && Opened(s, job.desc.digest, node) !in s.locks
    ensures Runs(c, s, p, run, s') && s'.Phase(p) == B.Checked(job, Opened(s, job.desc.digest, node))
    ensures AtName(s', job.desc.digest, Opened(s, job.desc.digest, node)) && ino !in s'.locks
    ensures FileAt(s', B.PartialName(job.desc.digest)) == Some(Holding(s, job.desc.digest))
  {
    var d := job.desc.digest;
    var closing := s.(procs := s.procs[p := B.Closing(job, ino, B.Reopen)]);
    var open := s.(procs := s.procs[p := B.Opening(job)], locks := s.locks - {ino});
    run := RunsOne(c, s, p, B.SameFile, closing);
    assert closing.procs[p := B.Opening(job)] == open.procs;
    run := RunsStep(c, s, p, run, closing, B.Close, open);
    var next := ChecksFile(c, open, p, job, node);
    s' := Held(open, p, d, Opened(s, d, node), Holding(s, d), B.Checked(job, Opened(s, d, node)));
    run := RunsThen(c, s, p, run, open, next, s');
  }

  // ---------------------------------------------------------------------------------------------
  // After the loop

  /** The directory and the phase after an attempt that fed `e` to the digester. */
  function DirAfter(c: B.Params, dir: map<B.Name, B.Ino>, d: Digest, ino: B.Ino, e: End): map<B.Name, B.Ino> {
    match e.outcome
    case Full =>
      if c.hash(e.fed) == d then (dir - {B.PartialName(d)})[B.BlobName(d) := ino] else dir - {B.PartialName(d)}
    case Short => dir - {B.PartialName(d)}
    case _ => dir[B.PartialName(d) := ino]
  }

  function Mismatched(c: B.Params, d: Digest, e: End): bool {
    e.outcome.Short? || (e.outcome.Full? && c.hash(e.fed) != d)
  }

  function PhaseAfter(c: B.Params, job: B.Job, resumed: bool, e: End): B.Phase {
    if Mismatched(c, job.desc.digest, e) && resumed && !job.second then B.Opening(B.Job(job.desc, true)) else B.Idle
  }

  lemma Closes(c: B.Params, s: B.State, p: B.Pid, ino: B.Ino, content: Bytes, dir: map<B.Name, B.Ino>, ph: B.Phase)
    requires ph.Closing? && ph.ino == ino && ino !in s.locks && !ph.after.Reopen?
    ensures B.Step(c, B.State(s.files[ino := content], dir, s.locks[ino := p], s.procs[p := ph]), p, B.Close)
      == Some(Closed(s, p, ino, content, dir, if ph.after.Finish? then B.Idle else B.Opening(B.Job(ph.job.desc, true))))
  {
    assert s.locks[ino := p] - {ino} == s.locks;
    var ph' := if ph.after.Finish? then B.Idle else B.Opening(B.Job(ph.job.desc, true));
    assert s.procs[p := ph][p := ph'] == s.procs[p := ph'];
  }

  lemma Discards(c: B.Params, s: B.State, p: B.Pid, d: Digest, ino: B.Ino, job: B.Job, resumed: bool, content: Bytes)
    returns (run: Run)
    requires job.desc.digest == d && ino !in s.locks
    ensures Runs(c, Held(s, p, d, ino, content, B.Discarding(job, ino, resumed)), p, run,
      Closed(s, p, ino, content, s.dir - {B.PartialName(d)},
        if resumed && !job.second then B.Opening(B.Job(job.desc, true)) else B.Idle))
  {
    var from := Held(s, p, d, ino, content, B.Discarding(job, ino, resumed));
    var ph := B.Closing(job, ino, if resumed && !job.second then B.Retry else B.Finish);
    var dir := s.dir - {B.PartialName(d)};
    assert s.dir[B.PartialName(d) := ino] - {B.PartialName(d)} == dir;
    assert s.procs[p := B.Discarding(job, ino, resumed)][p := ph] == s.procs[p := ph];
    var closing := B.State(s.files[ino := content], dir, s.locks[ino := p], s.procs[p := ph]);
    run := RunsOne(c, from, p, B.Discard(true), closing);
    Closes(c, s, p, ino, content, dir, ph);
    run := RunsStep(c, from, p, run, closing, B.Close,
      Closed(s, p, ino, content, dir, if ph.after.Finish? then B.Idle else B.Opening(B.Job(job.desc, true))));
  }

  lemma Commits(c: B.Params, s: B.State, p: B.Pid, d: Digest, ino: B.Ino, job: B.Job, content: Bytes) returns (run: Run)
    requires job.desc.digest == d && ino !in s.locks
    ensures Runs(c, Held(s, p, d, ino, content, B.Matched(job, ino)), p, run,
      Closed(s, p, ino, content, (s.dir - {B.PartialName(d)})[B.BlobName(d) := ino], B.Idle))
  {
    var from, ph := Held(s, p, d, ino, content, B.Matched(job, ino)), B.Closing(job, ino, B.Finish);
    var dir := (s.dir - {B.PartialName(d)})[B.BlobName(d) := ino];
    assert (s.dir[B.PartialName(d) := ino] - {B.PartialName(d)})[B.BlobName(d) := ino] == dir;
    assert s.procs[p := B.Matched(job, ino)][p := ph] == s.procs[p := ph];
    var closing := B.State(s.files[ino := content], dir, s.locks[ino := p], s.procs[p := ph]);
    run := RunsOne(c, from, p, B.Commit(true), closing);
    Closes(c, s, p, ino, content, dir, ph);
    run := RunsStep(c, from, p, run, closing, B.Close, Closed(s, p, ino, content, dir, B.Idle));
  }

  /** From the end of the loop to the closed file. */
  lemma EndsAttempt(c: B.Params, s: B.State, p: B.Pid, d: Digest, ino: B.Ino, job: B.Job, resumed: bool, e: End)
    returns (run: Run)
    requires job.desc.digest == d && ino !in s.locks && (e.outcome.Full? ==> |e.fed| == job.desc.size)
    ensures Runs(c, Held(s, p, d, ino, e.fed, EndPhase(job, ino, resumed, e)), p, run,
      Closed(s, p, ino, e.fed, DirAfter(c, s.dir, d, ino, e), PhaseAfter(c, job, resumed, e)))
  {
    var ph := EndPhase(job, ino, resumed, e);
    var from := Held(s, p, d, ino, e.fed, ph);
    if e.outcome.Full? {
      var next := if c.hash(e.fed) == d then B.Matched(job, ino) else B.Discarding(job, ino, resumed);
      HeldStep(c, s, p, d, ino, e.fed, ph, B.Compare, e.fed, next);
      run := RunsOne(c, from, p, B.Compare, Held(s, p, d, ino, e.fed, next));
      var rest;
      if c.hash(e.fed) == d {
        rest := Commits(c, s, p, d, ino, job, e.fed);
      } else {
        rest := Discards(c, s, p, d, ino, job, resumed, e.fed);
      }
      run := RunsThen(c, from, p, run, Held(s, p, d, ino, e.fed, next), rest,
        Closed(s, p, ino, e.fed, DirAfter(c, s.dir, d, ino, e), PhaseAfter(c, job, resumed, e)));
    } else if e.outcome.Short? {
      run := Discards(c, s, p, d, ino, job, resumed, e.fed);
    } else {
      Closes(c, s, p, ino, e.fed, s.dir[B.PartialName(d) := ino], ph);
      run := RunsOne(c, from, p, B.Close, Closed(s, p, ino, e.fed, s.dir[B.PartialName(d) := ino], B.Idle));
    }
  }

  // ---------------------------------------------------------------------------------------------
  // One attempt

  /** The state after one attempt at a blob that is not cached. */
  function AfterAttempt(
      c: B.Params, s: B.State, p: B.Pid, job: B.Job, node: B.Ino, replies: Replies, k: nat, polls: nat): B.State
  {
    var d := job.desc.digest;
    var ino, saved := Opened(s, d, node), Reused(Some(Holding(s, d)), job.desc.size);
    var e := Drain(replies, k, polls, job.desc.size, saved);
    Closed(s, p, ino, e.fed, DirAfter(c, s.dir, d, ino, e), PhaseAfter(c, job, saved != [], e))
  }

  lemma RunsAttempt(c: B.Params, s: B.State, p: B.Pid, job: B.Job, node: B.Ino, replies: Replies, k: nat, polls: nat)
    returns (run: Run)
    requires Ready(c, s, p, job, node) && B.BlobName(job.desc.digest) !in s.dir
    ensures Runs(c, s, p, run, AfterAttempt(c, s, p, job, node, replies, k, polls))
  {
    var d := job.desc.digest;
    var ino, content := Opened(s, d, node), Holding(s, d);
    var saved := Reused(Some(content), job.desc.size);
    var e := Drain(replies, k, polls, job.desc.size, saved);
    run := ChecksFile(c, s, p, job, node);
    var next := SizesFile(c, s, p, d, ino, content, job);
    run := RunsThen(c, s, p, run, Held(s, p, d, ino, content, B.Checked(job, ino)), next,
      Held(s, p, d, ino, saved, B.Hashing(job, ino, |saved|, [])));
    next := HashesPrefix(c, s, p, d, ino, saved, job);
    var start := Held(s, p, d, ino, saved, B.Copying(job, ino, saved != [], |saved|, saved));
    run := RunsThen(c, s, p, run, Held(s, p, d, ino, saved, B.Hashing(job, ino, |saved|, [])), next, start);
    next := LoopIsDrain(c, start, p, job, ino, saved != [], saved, replies, k, polls);
    HeldMoved(s, p, d, ino, saved, start.procs[p], e.fed, EndPhase(job, ino, saved != [], e));
    run := RunsThen(c, s, p, run, start, next, Held(s, p, d, ino, e.fed, EndPhase(job, ino, saved != [], e)));
    next := EndsAttempt(c, s, p, d, ino, job, saved != [], e);
    run := RunsThen(c, s, p, run, Held(s, p, d, ino, e.fed, EndPhase(job, ino, saved != [], e)), next,
      AfterAttempt(c, s, p, job, node, replies, k, polls));
  }

  /** What a process has left of two names, and that nothing else is different. */
  ghost predicate LeavesFiles(s: B.State, s': B.State, p: B.Pid, d: Digest, a: Attempt) {
    && FileAt(s', B.PartialName(d)) == a.partial && FileAt(s', B.BlobName(d)) == a.blob
    && (forall n | n != B.PartialName(d) && n != B.BlobName(d) :: FileAt(s', n) == FileAt(s, n))
    && s'.locks == s.locks && (forall q: B.Pid | q != p :: s'.Phase(q) == s.Phase(q))
  }

  function PhaseOf(job: B.Job, resumed: bool, a: Attempt): B.Phase {
    if a.err == Mismatch && resumed && !job.second then B.Opening(B.Job(job.desc, true)) else B.Idle
  }

  lemma OtherFiles(
      c: B.Params, s: B.State, p: B.Pid, d: Digest, ino: B.Ino, e: End, ph: B.Phase, n: B.Name)
    requires B.NamesOK(s) && n != B.PartialName(d) && n != B.BlobName(d)
    requires if B.PartialName(d) in s.dir then ino == s.dir[B.PartialName(d)] else ino !in s.files
    ensures FileAt(Closed(s, p, ino, e.fed, DirAfter(c, s.dir, d, ino, e), ph), n) == FileAt(s, n)
  {
    var dir := DirAfter(c, s.dir, d, ino, e);
    assert (n in dir <==> n in s.dir) && (n in s.dir ==> dir[n] == s.dir[n]);
    if n in s.dir {
      assert s.dir[n] in s.files && s.dir[n] != ino;
    }
  }

  /** One attempt in the machine leaves what the method's attempt leaves. */
  lemma AttemptLeaves(c: B.Params, s: B.State, p: B.Pid, job: B.Job, node: B.Ino, replies: Replies, k: nat, polls: nat)
    requires Ready(c, s, p, job, node) && B.BlobName(job.desc.digest) !in s.dir
    ensures var d := job.desc.digest;
      var partial, s' := FileAt(s, B.PartialName(d)), AfterAttempt(c, s, p, job, node, replies, k, polls);
      var a := AttemptEnds(c.hash, partial, d, job.desc.size, replies, k, polls);
      LeavesFiles(s, s', p, d, a) && s'.Phase(p) == PhaseOf(job, Reused(partial, job.desc.size) != [], a)
  {
    var d := job.desc.digest;
    var ino, saved := Opened(s, d, node), Reused(FileAt(s, B.PartialName(d)), job.desc.size);
    assert saved == Reused(Some(Holding(s, d)), job.desc.size);
    var e := Drain(replies, k, polls, job.desc.size, saved);
    forall n | n != B.PartialName(d) && n != B.BlobName(d)
      ensures FileAt(AfterAttempt(c, s, p, job, node, replies, k, polls), n) == FileAt(s, n)
    {
      OtherFiles(c, s, p, d, ino, e, PhaseAfter(c, job, saved != [], e), n);
    }
  }

  // ---------------------------------------------------------------------------------------------
  // Both attempts

  /** A process that may begin: the blob is not cached, nobody has locked its partial file, `node` is free. */
  ghost predicate Begins(c: B.Params, s: B.State, p: B.Pid, d: Digest, node: B.Ino) {
    && c.unix && B.NamesOK(s) && s.Phase(p).Idle? && B.BlobName(d) !in s.dir
    && node !in s.files && node !in s.locks && Opened(s, d, node) !in s.locks
  }

  /** After a mismatch of a reused prefix the process stands before its second attempt. */
  lemma SecondIsReady(c: B.Params, s: B.State, p: B.Pid, job: B.Job, node: B.Ino, replies: Replies, k: nat, polls: nat)
    requires Ready(c, s, p, job, node) && node !in s.locks && B.BlobName(job.desc.digest) !in s.dir
    requires AfterAttempt(c, s, p, job, node, replies, k, polls).Phase(p).Opening?
    ensures var s' := AfterAttempt(c, s, p, job, node, replies, k, polls);
      && Ready(c, s', p, B.Job(job.desc, true), node) && B.BlobName(job.desc.digest) !in s'.dir
      && FileAt(s', B.PartialName(job.desc.digest)) == None
  {
    var d := job.desc.digest;
    assert B.PartialName(d) in s.dir;
    assert AfterAttempt(c, s, p, job, node, replies, k, polls).dir == s.dir - {B.PartialName(d)};
  }

  /** A mismatch discards what was there; a process that may try again is ready to. */
  ghost predicate MayTryAgain(c: B.Params, s: B.State, p: B.Pid, desc: B.Desc, node: B.Ino) {
    && Ready(c, s, p, B.Job(desc, true), node) && B.BlobName(desc.digest) !in s.dir
    && FileAt(s, B.PartialName(desc.digest)) == None
  }

  /** The call begins and makes its first attempt. */
  lemma FetchBegins(c: B.Params, s: B.State, p: B.Pid, desc: B.Desc, node: B.Ino, replies: Replies, k: nat, polls: nat)
    returns (run: Run, mid: B.State)
    requires Begins(c, s, p, desc.digest, node)
    ensures var d, partial := desc.digest, FileAt(s, B.PartialName(desc.digest));
      var a := AttemptEnds(c.hash, partial, d, desc.size, replies, k, polls);
      && Runs(c, s, p, run, mid) && LeavesFiles(s, mid, p, d, a)
      && mid.Phase(p) == PhaseOf(B.Job(desc, false), Reused(partial, desc.size) != [], a)
    ensures mid.Phase(p).Opening? ==> MayTryAgain(c, mid, p, desc, node)
  {
    var job := B.Job(desc, false);
    var s1 := s.(procs := s.procs[p := B.Opening(job)]);
    run := RunsOne(c, s, p, B.FetchBegin(desc), s1);
    SameFiles(s, s1);
    AttemptLeaves(c, s1, p, job, node, replies, k, polls);
    var first := RunsAttempt(c, s1, p, job, node, replies, k, polls);
    mid := AfterAttempt(c, s1, p, job, node, replies, k, polls);
    run := RunsThen(c, s, p, run, s1, first, mid);
    if mid.Phase(p).Opening? {
      SecondIsReady(c, s1, p, job, node, replies, k, polls);
    }
  }

  lemma LeavesTwice(s: B.State, mid: B.State, s': B.State, p: B.Pid, d: Digest, a: Attempt, b: Attempt)
    requires LeavesFiles(s, mid, p, d, a) && LeavesFiles(mid, s', p, d, b)
    ensures LeavesFiles(s, s', p, d, b)
  {
  }

  /** The second attempt. */
  lemma FetchAgain(
      c: B.Params, s: B.State, mid: B.State, p: B.Pid, desc: B.Desc, node: B.Ino, a: Attempt, replies: Replies,
      k: nat, polls: nat)
    returns (run: Run, s': B.State)
    requires MayTryAgain(c, mid, p, desc, node) && LeavesFiles(s, mid, p, desc.digest, a)
    ensures Runs(c, mid, p, run, s') && s'.Phase(p).Idle?
    ensures LeavesFiles(s, s', p, desc.digest, AttemptEnds(c.hash, None, desc.digest, desc.size, replies, k, polls))
  {
    var d, job := desc.digest, B.Job(desc, true);
    AttemptLeaves(c, mid, p, job, node, replies, k, polls);
    run := RunsAttempt(c, mid, p, job, node, replies, k, polls);
    s' := AfterAttempt(c, mid, p, job, node, replies, k, polls);
    LeavesTwice(s, mid, s', p, d, a, AttemptEnds(c.hash, None, d, desc.size, replies, k, polls));
  }

  /**
   * A whole Fetch is a run of the machine: a process left to itself takes the partial file, the blob and
   * itself to where the method's function says, in one attempt or two, and touches nothing else.
   */
  lemma FetchIsARun(c: B.Params, s: B.State, p: B.Pid, desc: B.Desc, node: B.Ino, replies: Replies, k: nat, polls: nat)
    returns (run: Run, s': B.State)
    requires Begins(c, s, p, desc.digest, node)
    ensures Runs(c, s, p, run, s') && s'.Phase(p).Idle?
    ensures LeavesFiles(s, s', p, desc.digest,
      FetchEnds(c.hash, FileAt(s, B.PartialName(desc.digest)), desc.digest, desc.size, replies, k, polls))
  {
    var d := desc.digest;
    var a := AttemptEnds(c.hash, FileAt(s, B.PartialName(d)), d, desc.size, replies, k, polls);
    run, s' := FetchBegins(c, s, p, desc, node, replies, k, polls);
    if s'.Phase(p).Opening? {
      var second, end := FetchAgain(c, s, s', p, desc, node, a, replies, a.count, polls - (a.count - k));
      run := RunsThen(c, s, p, run, s', second, end);
      s' := end;
    }
  }

  lemma SameFiles(s: B.State, s': B.State)
    requires s'.files == s.files && s'.dir == s.dir
    ensures forall n :: FileAt(s', n) == FileAt(s, n)
  {
  }
}
