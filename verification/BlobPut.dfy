/** A whole Put of one process, seen as a run of the blob cache machine. */
module BlobPut {
  import opened Content
  import B = BlobProtocol
  import opened BlobFetch

  /** The process writes its scratch file; all else is as in `s`. */
  function Scratch(s: B.State, p: B.Pid, tmp: nat, node: B.Ino, content: Bytes, ph: B.Phase): B.State {
    B.State(s.files[node := content], s.dir[B.TmpName(tmp) := node], s.locks, s.procs[p := ph])
  }

  lemma ScratchStep(
      c: B.Params, s: B.State, p: B.Pid, tmp: nat, node: B.Ino, content: Bytes, ph: B.Phase, e: B.Event,
      content': Bytes, ph': B.Phase)
    requires B.Act(c, Scratch(s, p, tmp, node, content, ph), ph, e)
      == Some((if content' == content then B.Nothing else B.SetFile(node, content'), ph'))
    ensures B.Step(c, Scratch(s, p, tmp, node, content, ph), p, e) == Some(Scratch(s, p, tmp, node, content', ph'))
  {
    assert s.files[node := content][node := content'] == s.files[node := content'];
    assert s.procs[p := ph][p := ph'] == s.procs[p := ph'];
  }

  lemma OpensScratch(c: B.Params, s: B.State, p: B.Pid, tmp: nat, node: B.Ino) returns (run: Run)
    requires s.Phase(p).Idle? && B.TmpName(tmp) !in s.dir && node !in s.files
    ensures Runs(c, s, p, run, Scratch(s, p, tmp, node, [], B.Spooling(tmp, node, [])))
  {
    run := RunsOne(c, s, p, B.PutOpen(tmp, node), Scratch(s, p, tmp, node, [], B.Spooling(tmp, node, [])));
  }

  lemma FillsScratch(c: B.Params, s: B.State, p: B.Pid, data: Bytes, tmp: nat, node: B.Ino) returns (run: Run)
    ensures Runs(c, Scratch(s, p, tmp, node, [], B.Spooling(tmp, node, [])), p, run,
      Scratch(s, p, tmp, node, data, B.Spooling(tmp, node, data)))
  {
    var from, ph := Scratch(s, p, tmp, node, [], B.Spooling(tmp, node, [])), B.Spooling(tmp, node, data);
    if data == [] {
      return [];
    }
    assert WriteAt([], 0, data) == data && [] + data == data;
    ScratchStep(c, s, p, tmp, node, [], B.Spooling(tmp, node, []), B.PutWrite(data), data, ph);
    run := RunsOne(c, from, p, B.PutWrite(data), Scratch(s, p, tmp, node, data, ph));
  }

  lemma ClosesScratch(c: B.Params, s: B.State, p: B.Pid, data: Bytes, tmp: nat, node: B.Ino) returns (run: Run)
    ensures Runs(c, Scratch(s, p, tmp, node, data, B.Spooling(tmp, node, data)), p, run,
      Scratch(s, p, tmp, node, data, B.Spooled(tmp, node, c.hash(data))))
  {
    var ph, next := B.Spooling(tmp, node, data), B.Spooled(tmp, node, c.hash(data));
    ScratchStep(c, s, p, tmp, node, data, ph, B.PutClose, data, next);
    run := RunsOne(c, Scratch(s, p, tmp, node, data, ph), p, B.PutClose, Scratch(s, p, tmp, node, data, next));
  }

  /** Spools the data into a scratch file of its own and learns its digest. */
  lemma Spools(c: B.Params, s: B.State, p: B.Pid, data: Bytes, tmp: nat, node: B.Ino) returns (run: Run)
    requires s.Phase(p).Idle? && B.TmpName(tmp) !in s.dir && node !in s.files
    ensures Runs(c, s, p, run, Scratch(s, p, tmp, node, data, B.Spooled(tmp, node, c.hash(data))))
  {
    var empty := Scratch(s, p, tmp, node, [], B.Spooling(tmp, node, []));
    var filled := Scratch(s, p, tmp, node, data, B.Spooling(tmp, node, data));
    run := OpensScratch(c, s, p, tmp, node);
    var next := FillsScratch(c, s, p, data, tmp, node);
    run := RunsThen(c, s, p, run, empty, next, filled);
    next := ClosesScratch(c, s, p, data, tmp, node);
    run := RunsThen(c, s, p, run, filled, next,
      Scratch(s, p, tmp, node, data, B.Spooled(tmp, node, c.hash(data))));
  }

  /** The scratch file gets its name among the blobs, or goes when the blob is there. */
  function DirAfterPut(dir: map<B.Name, B.Ino>, d: Digest, node: B.Ino): map<B.Name, B.Ino> {
    if B.BlobName(d) in dir then dir else dir[B.BlobName(d) := node]
  }

  function Decided(s: B.State, d: Digest, tmp: nat, node: B.Ino): B.Phase {
    if B.BlobName(d) in s.dir then B.Cleanup(tmp, node) else B.Renaming(tmp, node, d)
  }

  lemma Decides(c: B.Params, s: B.State, p: B.Pid, data: Bytes, d: Digest, tmp: nat, node: B.Ino) returns (run: Run)
    ensures Runs(c, Scratch(s, p, tmp, node, data, B.Spooled(tmp, node, d)), p, run,
      Scratch(s, p, tmp, node, data, Decided(s, d, tmp, node)))
  {
    var ph, next := B.Spooled(tmp, node, d), Decided(s, d, tmp, node);
    ScratchStep(c, s, p, tmp, node, data, ph, B.PutHas, data, next);
    run := RunsOne(c, Scratch(s, p, tmp, node, data, ph), p, B.PutHas, Scratch(s, p, tmp, node, data, next));
  }

  lemma Cleans(c: B.Params, s: B.State, p: B.Pid, data: Bytes, tmp: nat, node: B.Ino) returns (run: Run)
    requires B.TmpName(tmp) !in s.dir
    ensures Runs(c, Scratch(s, p, tmp, node, data, B.Cleanup(tmp, node)), p, run,
      Closed(s, p, node, data, s.dir, B.Idle))
  {
    assert s.dir[B.TmpName(tmp) := node] - {B.TmpName(tmp)} == s.dir;
    assert s.procs[p := B.Cleanup(tmp, node)][p := B.Idle] == s.procs[p := B.Idle];
    run := RunsOne(c, Scratch(s, p, tmp, node, data, B.Cleanup(tmp, node)), p, B.PutCleanup,
      Closed(s, p, node, data, s.dir, B.Idle));
  }

  lemma Renames(c: B.Params, s: B.State, p: B.Pid, data: Bytes, d: Digest, tmp: nat, node: B.Ino) returns (run: Run)
    requires B.TmpName(tmp) !in s.dir
    ensures Runs(c, Scratch(s, p, tmp, node, data, B.Renaming(tmp, node, d)), p, run,
      Closed(s, p, node, data, s.dir[B.BlobName(d) := node], B.Idle))
  {
    assert s.dir[B.TmpName(tmp) := node] - {B.TmpName(tmp)} == s.dir;
    assert s.procs[p := B.Renaming(tmp, node, d)][p := B.Idle] == s.procs[p := B.Idle];
    run := RunsOne(c, Scratch(s, p, tmp, node, data, B.Renaming(tmp, node, d)), p, B.PutRename(true),
      Closed(s, p, node, data, s.dir[B.BlobName(d) := node], B.Idle));
  }

  lemma Settles(c: B.Params, s: B.State, p: B.Pid, data: Bytes, d: Digest, tmp: nat, node: B.Ino) returns (run: Run)
    requires B.TmpName(tmp) !in s.dir
    ensures Runs(c, Scratch(s, p, tmp, node, data, Decided(s, d, tmp, node)), p, run,
      Closed(s, p, node, data, DirAfterPut(s.dir, d, node), B.Idle))
  {
    if B.BlobName(d) in s.dir {
      run := Cleans(c, s, p, data, tmp, node);
    } else {
      run := Renames(c, s, p, data, d, tmp, node);
    }
  }

  /**
   * A whole Put is a run of the machine: left to itself a process stores the data under its own digest
   * unless that blob is there, leaves no scratch file and touches nothing else.
   */
  lemma PutIsARun(c: B.Params, s: B.State, p: B.Pid, data: Bytes, tmp: nat, node: B.Ino) returns (run: Run, s': B.State)
    requires B.NamesOK(s) && s.Phase(p).Idle? && B.TmpName(tmp) !in s.dir && node !in s.files
    ensures Runs(c, s, p, run, s') && s'.Phase(p).Idle?
    ensures FileAt(s', B.BlobName(c.hash(data))) ==
      if B.BlobName(c.hash(data)) in s.dir then FileAt(s, B.BlobName(c.hash(data))) else Some(data)
    ensures forall n | n != B.BlobName(c.hash(data)) :: FileAt(s', n) == FileAt(s, n)
    ensures s'.locks == s.locks && forall q: B.Pid | q != p :: s'.Phase(q) == s.Phase(q)
  {
    var d := c.hash(data);
    run := Spools(c, s, p, data, tmp, node);
    var next := Decides(c, s, p, data, d, tmp, node);
    var decided := Scratch(s, p, tmp, node, data, Decided(s, d, tmp, node));
    run := RunsThen(c, s, p, run, Scratch(s, p, tmp, node, data, B.Spooled(tmp, node, d)), next, decided);
    next := Settles(c, s, p, data, d, tmp, node);
    s' := Closed(s, p, node, data, DirAfterPut(s.dir, d, node), B.Idle);
    run := RunsThen(c, s, p, run, decided, next, s');
    forall n | n != B.BlobName(d) ensures FileAt(s', n) == FileAt(s, n) {
      assert n in s'.dir <==> n in s.dir;
      assert n in s.dir ==> s'.dir[n] == s.dir[n] != node;
    }
  }
}
