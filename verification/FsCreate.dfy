/** A whole Create of one process left to itself, as a run of the file system machine. */
module FsCreate {
  import opened Content
  import opened ImageModel
  import opened FsDir

  type Run = seq<(Pid, Event)>

  /** The run consists of steps of `p` only and leads from one state to the other. */
  ghost predicate Runs(hash: Hash, s: State, p: Pid, run: Run, s': State) {
    Exec(hash, s, run) == Some(s') && forall i | 0 <= i < |run| :: run[i].0 == p
  }

  lemma {:induction false} RunsStep(hash: Hash, s: State, p: Pid, run: Run, mid: State, e: Event, s': State)
    requires Runs(hash, s, p, run, mid) && Step(hash, mid, p, e) == Some(s')
    ensures Runs(hash, s, p, run + [(p, e)], s')
    decreases |run|
  {
    if run == [] {
      assert [(p, e)][1..] == [];
      assert run + [(p, e)] == [(p, e)];
    } else {
      RunsStep(hash, Step(hash, s, run[0].0, run[0].1).value, p, run[1..], mid, e, s');
      assert (run + [(p, e)])[1..] == run[1..] + [(p, e)];
    }
  }

  /** The process has a temporary file; all else is as in `s`. */
  function WithTemp(s: State, p: Pid, tmp: Path, node: Ino, content: Bytes, ph: Phase): State {
    State(s.files[node := content], s.dir[tmp := node], s.procs[p := ph])
  }

  /** A process that may call Create: its name is no temporary one, temporary name and inode are free. */
  ghost predicate Begins(s: State, p: Pid, job: Job, suffix: string, node: Ino) {
    && FilesOK(s) && (s.Phase(p).Idle? || s.Phase(p).Returned?) && !job.name.IsTemp()
    && TempOf(job.name, suffix) !in s.dir && node !in s.files
  }

  /** The first look: an existing name ends the call. */
  lemma Looks(hash: Hash, s: State, p: Pid, job: Job, suffix: string, node: Ino) returns (run: Run)
    requires Begins(s, p, job, suffix, node)
    ensures Runs(hash, s, p, run, s.Go(p, if job.name in s.dir then Returned(job, Existed) else Opening(job)))
  {
    run := [];
    RunsStep(hash, s, p, run, s, Begin(job), s.Go(p, Looking(job)));
    run := run + [(p, Begin(job))];
    var next := if job.name in s.dir then Returned(job, Existed) else Opening(job);
    assert s.procs[p := Looking(job)][p := next] == s.procs[p := next];
    RunsStep(hash, s, p, run, s.Go(p, Looking(job)), Lstat, s.Go(p, next));
    run := run + [(p, Lstat)];
  }

  /** The temporary file takes the whole body. */
  lemma Fills(hash: Hash, s: State, p: Pid, job: Job, suffix: string, node: Ino, body: Bytes) returns (run: Run)
    requires Begins(s, p, job, suffix, node) && job.name !in s.dir
    ensures var tmp := TempOf(job.name, suffix);
      Runs(hash, s, p, run, WithTemp(s, p, tmp, node, body, Filling(job, tmp, node, body)))
  {
    var tmp := TempOf(job.name, suffix);
    var empty := WithTemp(s, p, tmp, node, [], Filling(job, tmp, node, []));
    var full := WithTemp(s, p, tmp, node, body, Filling(job, tmp, node, body));
    run := Looks(hash, s, p, job, suffix, node);
    assert s.procs[p := Opening(job)][p := Filling(job, tmp, node, [])] == empty.procs;
    RunsStep(hash, s, p, run, s.Go(p, Opening(job)), OpenTemp(suffix, node), empty);
    run := run + [(p, OpenTemp(suffix, node))];
    assert WriteAt([], 0, body) == body && [] + body == body;
    assert empty.files[node := body] == full.files && empty.procs[p := full.procs[p]] == full.procs;
    RunsStep(hash, s, p, run, empty, Write(body), full);
    run := run + [(p, Write(body))];
  }

  /** How the call ends when the name was free, and what it leaves in the directory. */
  function Ending(hash: Hash, job: Job, body: Bytes): Outcome {
    if Verifies(hash, body, job.size, job.dgst) then Won else Broke
  }

  function DirAfter(hash: Hash, s: State, job: Job, node: Ino, body: Bytes): map<Path, Ino> {
    if Ending(hash, job, body).Won? then s.dir[job.name := node] else s.dir
  }

  /** After the link, or after the refusal: the temporary file is still there. */
  function Linked(hash: Hash, s: State, p: Pid, job: Job, tmp: Path, node: Ino, body: Bytes): State {
    State(s.files[node := body], DirAfter(hash, s, job, node, body)[tmp := node],
      s.procs[p := Removing(job, tmp, Ending(hash, job, body))])
  }

  lemma Links(hash: Hash, s: State, p: Pid, job: Job, suffix: string, node: Ino, body: Bytes) returns (run: Run)
    requires Begins(s, p, job, suffix, node) && job.name !in s.dir
    ensures Runs(hash, s, p, run, Linked(hash, s, p, job, TempOf(job.name, suffix), node, body))
  {
    var tmp := TempOf(job.name, suffix);
    TempIsTemp(job.name, suffix);
    var full := WithTemp(s, p, tmp, node, body, Filling(job, tmp, node, body));
    var linking := WithTemp(s, p, tmp, node, body, Linking(job, tmp, node));
    var end := Linked(hash, s, p, job, tmp, node, body);
    run := Fills(hash, s, p, job, suffix, node, body);
    if Ending(hash, job, body).Won? {
      assert full.procs[p := Linking(job, tmp, node)] == linking.procs;
      RunsStep(hash, s, p, run, full, Verify, linking);
      run := run + [(p, Verify)];
      assert linking.procs[p := Removing(job, tmp, Won)] == end.procs;
      assert s.dir[tmp := node][job.name := node] == s.dir[job.name := node][tmp := node];
      RunsStep(hash, s, p, run, linking, Link(true), end);
      run := run + [(p, Link(true))];
    } else {
      assert full.procs[p := Removing(job, tmp, Broke)] == end.procs;
      RunsStep(hash, s, p, run, full, Verify, end);
      run := run + [(p, Verify)];
    }
  }

  /** Back to the directory without the temporary file. */
  lemma Removes(hash: Hash, s: State, p: Pid, job: Job, suffix: string, node: Ino, body: Bytes)
    returns (run: Run, s': State)
    requires Begins(s, p, job, suffix, node) && job.name !in s.dir
    ensures Runs(hash, s, p, run, s')
    ensures s' == State(s.files[node := body], DirAfter(hash, s, job, node, body),
      s.procs[p := Returned(job, Ending(hash, job, body))])
  {
    var tmp := TempOf(job.name, suffix);
    TempIsTemp(job.name, suffix);
    var linked := Linked(hash, s, p, job, tmp, node, body);
    s' := State(s.files[node := body], DirAfter(hash, s, job, node, body),
      s.procs[p := Returned(job, Ending(hash, job, body))]);
    run := Links(hash, s, p, job, suffix, node, body);
    assert linked.dir - {tmp} == s'.dir;
    assert linked.procs[p := Returned(job, Ending(hash, job, body))] == s'.procs;
    RunsStep(hash, s, p, run, linked, Remove(true), s');
    run := run + [(p, Remove(true))];
  }

  /** The answer of create-if-absent as this machine gives it. */
  function Told(created: Created): Outcome {
    match created case Fresh => Won case Exists => Existed case Refused => Broke
  }

  /**
   * Create is create-if-absent: a process left to itself whose calls get through ends with the answer and
   * the visible entries of that operation, and leaves no temporary file behind, refused or not.
   */
  lemma CreateIsARun(hash: Hash, s: State, p: Pid, job: Job, suffix: string, node: Ino, body: Bytes)
    returns (run: Run, s': State)
    requires Begins(s, p, job, suffix, node)
    ensures Runs(hash, s, p, run, s') && s'.Phase(p).Returned? && s'.Phase(p).job == job
    ensures var (es, created) := CreateIfAbsent(hash, View(s), job.name, body, job.size, job.dgst);
      View(s') == es && s'.Phase(p).outcome == Told(created)
    ensures s'.dir.Keys <= s.dir.Keys + {job.name} && forall q: Pid | q != p :: s'.Phase(q) == s.Phase(q)
  {
    if job.name in s.dir {
      run := Looks(hash, s, p, job, suffix, node);
      s' := s.Go(p, Returned(job, Existed));
    } else {
      run, s' := Removes(hash, s, p, job, suffix, node, body);
      if Ending(hash, job, body).Won? {
        assert View(s') == View(s)[job.name := body];
      } else {
        assert View(s') == View(s);
      }
    }
  }
}
