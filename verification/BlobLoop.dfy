/** The download loop of one process, seen as steps of the blob cache machine. */
module BlobLoop {
  import opened Content
  import B = BlobProtocol
  import opened BlobCache

  function MachineErr(err: ReadErr): B.ReadErr {
    match err case NoErr => B.NoErr case Eof => B.Eof case Broken => B.OtherErr
  }

  /** Where the loop leaves its process: at the digest test, at the discard, or closing the file. */
  function EndPhase(job: B.Job, ino: B.Ino, resumed: bool, e: End): B.Phase {
    match e.outcome
    case Full => B.Copying(job, ino, resumed, |e.fed|, e.fed)
    case Short => B.Discarding(job, ino, resumed)
    case _ => B.Closing(job, ino, B.Finish)
  }

  /** The process moves and its file gets new bytes; nothing else changes. */
  function Moved(s: B.State, p: B.Pid, ino: B.Ino, content: Bytes, ph: B.Phase): B.State {
    s.(files := s.files[ino := content], procs := s.procs[p := ph])
  }

  ghost predicate AtRead(s: B.State, p: B.Pid, job: B.Job, ino: B.Ino, resumed: bool, fed: Bytes) {
    && s.Phase(p) == B.Copying(job, ino, resumed, |fed|, fed) && p in s.procs
    && ino in s.files && s.files[ino] == fed && |fed| <= job.desc.size
  }

  /** The events of one turn of the loop: a read, the write of what it returned, and the check of its error. */
  function Turn(p: B.Pid, data: Bytes, err: ReadErr): seq<(B.Pid, B.Event)> {
    [(p, B.SrcRead(data, MachineErr(err)))] + (if data == [] then [] else [(p, B.Write(|data|))]) + [(p, B.WriteDone)]
  }

  lemma {:induction false} ExecSplit(c: B.Params, s: B.State, a: seq<(B.Pid, B.Event)>, b: seq<(B.Pid, B.Event)>)
    requires B.Exec(c, s, a).Some?
    ensures B.Exec(c, s, a + b) == B.Exec(c, B.Exec(c, s, a).value, b)
    decreases |a|
  {
    if a == [] {
      assert a + b == b;
    } else {
      assert (a + b)[1..] == a[1..] + b;
      ExecSplit(c, B.Step(c, s, a[0].0, a[0].1).value, a[1..], b);
    }
  }

  lemma OneStep(c: B.Params, s: B.State, e: (B.Pid, B.Event))
    requires B.Step(c, s, e.0, e.1).Some?
    ensures B.Exec(c, s, [e]) == B.Step(c, s, e.0, e.1)
  {
    assert [e][1..] == [];
  }

  lemma ReadStep(
      c: B.Params, s: B.State, p: B.Pid, job: B.Job, ino: B.Ino, resumed: bool, fed: Bytes, data: Bytes, err: ReadErr)
    requires AtRead(s, p, job, ino, resumed, fed) && |fed| < job.desc.size && |data| <= job.desc.size - |fed|
    ensures B.Step(c, s, p, B.SrcRead(data, MachineErr(err)))
      == Some(Moved(s, p, ino, fed, B.Writing(job, ino, resumed, |fed|, fed, data, 0, MachineErr(err))))
  {
    assert s.files[ino := fed] == s.files;
  }

  lemma WriteStep(c: B.Params, s: B.State, p: B.Pid, ino: B.Ino, w: B.Phase)
    requires s.Phase(p) == w && w.Writing? && w.ino == ino && w.k == 0 && w.chunk != [] && w.done == |w.fed|
    requires ino in s.files && s.files[ino] == w.fed
    ensures B.Step(c, s, p, B.Write(|w.chunk|)) == Some(Moved(s, p, ino, w.fed + w.chunk, w.(k := |w.chunk|)))
  {
    WriteAtEnd(w.fed, w.chunk);
    assert w.chunk[0..|w.chunk|] == w.chunk;
  }

  lemma DoneStep(c: B.Params, s: B.State, p: B.Pid, ino: B.Ino, w: B.Phase)
    requires s.Phase(p) == w && w.Writing? && w.ino == ino && w.k == |w.chunk| && ino in s.files
    ensures B.Step(c, s, p, B.WriteDone) == Some(Moved(s, p, ino, s.files[ino], B.AfterChunk(w)))
  {
    assert s.files[ino := s.files[ino]] == s.files;
  }

  lemma MovedTwice(s: B.State, p: B.Pid, ino: B.Ino, a: Bytes, ph: B.Phase, b: Bytes)
    ensures forall ph' :: Moved(Moved(s, p, ino, a, ph), p, ino, b, ph') == Moved(s, p, ino, b, ph')
  {
  }

  /** Two runs that move the same process, one after the other. */
  lemma MovesJoin(
      c: B.Params, s: B.State, p: B.Pid, ino: B.Ino, first: seq<(B.Pid, B.Event)>, rest: seq<(B.Pid, B.Event)>,
      mid: B.State, a: Bytes, ph: B.Phase, b: Bytes, ph': B.Phase)
    requires mid == Moved(s, p, ino, a, ph) && B.Exec(c, s, first) == Some(mid)
    requires B.Exec(c, mid, rest) == Some(Moved(mid, p, ino, b, ph'))
    ensures B.Exec(c, s, first + rest) == Some(Moved(s, p, ino, b, ph'))
  {
    ExecSplit(c, s, first, rest);
    MovedTwice(s, p, ino, a, ph, b);
  }

  /** One turn: the file and the digester have the chunk, and the process is where the error beside it sends it. */
  lemma TurnRuns(
      c: B.Params, s: B.State, p: B.Pid, job: B.Job, ino: B.Ino, resumed: bool, fed: Bytes, data: Bytes, err: ReadErr)
    returns (ph: B.Phase)
    requires AtRead(s, p, job, ino, resumed, fed) && |fed| < job.desc.size && |data| <= job.desc.size - |fed|
    ensures B.Exec(c, s, Turn(p, data, err)) == Some(Moved(s, p, ino, fed + data, ph))
    ensures forall i | 0 <= i < |Turn(p, data, err)| :: Turn(p, data, err)[i].0 == p
    ensures ph == B.AfterChunk(B.Writing(job, ino, resumed, |fed|, fed, data, |data|, MachineErr(err)))
  {
    ph := B.AfterChunk(B.Writing(job, ino, resumed, |fed|, fed, data, |data|, MachineErr(err)));
    var w := B.Writing(job, ino, resumed, |fed|, fed, data, 0, MachineErr(err));
    var w' := w.(k := |data|);
    var read := [(p, B.SrcRead(data, MachineErr(err)))];
    var s1, s2 := Moved(s, p, ino, fed, w), Moved(s, p, ino, fed + data, w');
    ReadStep(c, s, p, job, ino, resumed, fed, data, err);
    OneStep(c, s, read[0]);
    DoneStep(c, s2, p, ino, w');
    OneStep(c, s2, (p, B.WriteDone));
    if data == [] {
      assert fed + data == fed && read + [] == read;
      MovesJoin(c, s, p, ino, read, [(p, B.WriteDone)], s2, fed, w, fed, B.AfterChunk(w'));
    } else {
      var write := [(p, B.Write(|data|))];
      WriteStep(c, s1, p, ino, w);
      OneStep(c, s1, write[0]);
      MovesJoin(c, s, p, ino, read, write, s1, fed, w, fed + data, w');
      MovesJoin(c, s, p, ino, read + write, [(p, B.WriteDone)], s2, fed + data, w', fed + data, B.AfterChunk(w'));
    }
  }

  /** The run of this process leaves it where the loop's end says. */
  ghost predicate LoopEnds(
      c: B.Params, s: B.State, p: B.Pid, job: B.Job, ino: B.Ino, resumed: bool, e: End, run: seq<(B.Pid, B.Event)>)
  {
    && B.Exec(c, s, run) == Some(Moved(s, p, ino, e.fed, EndPhase(job, ino, resumed, e)))
    && forall i | 0 <= i < |run| :: run[i].0 == p
  }

  /** Before a read: the file is full, or the context is done. */
  lemma LoopStops(c: B.Params, s: B.State, p: B.Pid, job: B.Job, ino: B.Ino, resumed: bool, fed: Bytes, k: nat)
    requires AtRead(s, p, job, ino, resumed, fed)
    ensures LoopEnds(c, s, p, job, ino, resumed, End(Full, fed, k), [])
    ensures LoopEnds(c, s, p, job, ino, resumed, End(Cancelled, fed, k), [(p, B.Fail)])
  {
    assert s == Moved(s, p, ino, fed, s.Phase(p));
    OneStep(c, s, (p, B.Fail));
    assert s.files[ino := fed] == s.files;
  }

  /** The process is about to read again, its file and its digester with `fed`. */
  function Again(s: B.State, p: B.Pid, job: B.Job, ino: B.Ino, resumed: bool, fed: Bytes): B.State {
    Moved(s, p, ino, fed, B.Copying(job, ino, resumed, |fed|, fed))
  }

  ghost predicate Turned(
      c: B.Params, s: B.State, p: B.Pid, job: B.Job, ino: B.Ino, resumed: bool, fed: Bytes, turn: seq<(B.Pid, B.Event)>)
  {
    && B.Exec(c, s, turn) == Some(Again(s, p, job, ino, resumed, fed)) && (forall i | 0 <= i < |turn| :: turn[i].0 == p)
    && AtRead(Again(s, p, job, ino, resumed, fed), p, job, ino, resumed, fed)
  }

  /** Where a turn sends the process is where the loop's function goes. */
  lemma AfterTurn(job: B.Job, ino: B.Ino, resumed: bool, fed: Bytes, replies: Replies, k: nat, polls: nat)
    requires |fed| < job.desc.size && polls > 0
    ensures
      var r := Serve(replies, k, |fed|, Min(BUF_SIZE, job.desc.size - |fed|));
      var ph := B.AfterChunk(B.Writing(job, ino, resumed, |fed|, fed, r.data, |r.data|, MachineErr(r.err)));
      var e, fed' := Drain(replies, k, polls, job.desc.size, fed), fed + r.data;
      if ph.Copying? then
        ph == B.Copying(job, ino, resumed, |fed'|, fed') && e == Drain(replies, k + 1, polls - 1, job.desc.size, fed')
      else
        e.fed == fed' && ph == EndPhase(job, ino, resumed, e)
  {
  }

  /** After a turn the loop is over, or the process is about to read again with one more chunk. */
  lemma LoopTurns(
      c: B.Params, s: B.State, p: B.Pid, job: B.Job, ino: B.Ino, resumed: bool, fed: Bytes, replies: Replies, k: nat,
      polls: nat)
    returns (turn: seq<(B.Pid, B.Event)>, more: Option<Bytes>)
    requires AtRead(s, p, job, ino, resumed, fed) && |fed| < job.desc.size && polls > 0
    ensures more.None? ==> LoopEnds(c, s, p, job, ino, resumed, Drain(replies, k, polls, job.desc.size, fed), turn)
    ensures more.Some? ==> Turned(c, s, p, job, ino, resumed, more.value, turn)
    ensures more.Some? ==>
      Drain(replies, k, polls, job.desc.size, fed) == Drain(replies, k + 1, polls - 1, job.desc.size, more.value)
  {
    var r := Serve(replies, k, |fed|, Min(BUF_SIZE, job.desc.size - |fed|));
    var ph := TurnRuns(c, s, p, job, ino, resumed, fed, r.data, r.err);
    AfterTurn(job, ino, resumed, fed, replies, k, polls);
    turn := Turn(p, r.data, r.err);
    more := if ph.Copying? then Some(fed + r.data) else None;
  }

  /**
   * The loop of the method is a run of the machine: left to itself, a process about to read takes its
   * file, what it fed to the digester and itself to where Drain says, and touches nothing else.
   */
  lemma {:induction false} LoopIsDrain(
      c: B.Params, s: B.State, p: B.Pid, job: B.Job, ino: B.Ino, resumed: bool, fed: Bytes, replies: Replies, k: nat,
      polls: nat)
    returns (run: seq<(B.Pid, B.Event)>)
    requires AtRead(s, p, job, ino, resumed, fed)
    ensures LoopEnds(c, s, p, job, ino, resumed, Drain(replies, k, polls, job.desc.size, fed), run)
    decreases polls
  {
    if |fed| >= job.desc.size {
      LoopStops(c, s, p, job, ino, resumed, fed, k);
      run := [];
    } else if polls == 0 {
      LoopStops(c, s, p, job, ino, resumed, fed, k);
      run := [(p, B.Fail)];
    } else {
      var more;
      run, more := LoopTurns(c, s, p, job, ino, resumed, fed, replies, k, polls);
      if more.Some? {
        var s' := Again(s, p, job, ino, resumed, more.value);
        var rest := LoopIsDrain(c, s', p, job, ino, resumed, more.value, replies, k + 1, polls - 1);
        var e := Drain(replies, k + 1, polls - 1, job.desc.size, more.value);
        run := TurnGoesOn(c, s, p, job, ino, resumed, more.value, e, run, rest);
      }
    }
  }

  lemma TurnGoesOn(
      c: B.Params, s: B.State, p: B.Pid, job: B.Job, ino: B.Ino, resumed: bool, fed: Bytes, e: End,
      turn: seq<(B.Pid, B.Event)>, rest: seq<(B.Pid, B.Event)>)
    returns (run: seq<(B.Pid, B.Event)>)
    requires Turned(c, s, p, job, ino, resumed, fed, turn)
    requires LoopEnds(c, Again(s, p, job, ino, resumed, fed), p, job, ino, resumed, e, rest)
    ensures LoopEnds(c, s, p, job, ino, resumed, e, run)
  {
    run := turn + rest;
    var ph := B.Copying(job, ino, resumed, |fed|, fed);
    MovesJoin(c, s, p, ino, turn, rest, Moved(s, p, ino, fed, ph), fed, ph, e.fed, EndPhase(job, ino, resumed, e));
  }
}
