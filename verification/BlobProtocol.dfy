/**
 * The blob cache as a protocol between processes that share one cache directory.
 *
 * One event is one system call or one local decision of one process. Processes interleave freely,
 * may fail at any call, and may crash between any two. Inodes are never reused while the model
 * runs: a process compares inodes only while it holds one of them open.
 */
module BlobProtocol {
  import opened Content

  type Pid = nat
  type Ino = nat

  /** `unix`: flock is real; otherwise taking the lock does nothing. */
  datatype Params = Params(hash: Hash, unix: bool)

  datatype Desc = Desc(digest: Digest, size: nat)

  /** One Fetch call; `second` marks the fresh attempt after a mismatch of a resumed prefix. */
  datatype Job = Job(desc: Desc, second: bool)

  datatype ReadErr = NoErr | Eof | OtherErr

  datatype After = Finish | Retry | Reopen

  datatype Phase =
    | Idle
    // Fetch
    | Opening(job: Job)
    | Waiting(job: Job, ino: Ino)
    | Locked(job: Job, ino: Ino)
    | Checked(job: Job, ino: Ino)
    | Sizing(job: Job, ino: Ino)
    | Oversize(job: Job, ino: Ino)
    | Hashing(job: Job, ino: Ino, done: nat, fed: Bytes)
    | Copying(job: Job, ino: Ino, resumed: bool, done: nat, fed: Bytes)
    | Writing(job: Job, ino: Ino, resumed: bool, done: nat, fed: Bytes, chunk: Bytes, k: nat, rerr: ReadErr)
    | Matched(job: Job, ino: Ino)
    | Discarding(job: Job, ino: Ino, resumed: bool)
    | Closing(job: Job, ino: Ino, after: After)
    // Put
    | Spooling(name: nat, out: Ino, stream: Bytes)
    | Spooled(name: nat, out: Ino, dgst: Digest)
    | Renaming(name: nat, out: Ino, dgst: Digest)
    | Cleanup(name: nat, out: Ino)
  {
    /** The process has an open file it locked. */
    predicate HoldsLock() {
      Locked? || Critical() || Closing?
    }

    /** openLocked has returned and the partial file is neither committed, discarded nor given up. */
    predicate Critical() {
      Checked? || Sizing? || Oversize? || Hashing? || Copying? || Writing? || Matched? || Discarding?
    }

    predicate Puts() {
      Spooling? || Spooled? || Renaming? || Cleanup?
    }
  }

  /** A name in the cache directory: partial/<digest>, blobs/<digest> or tmp/<suffix>. */
  datatype Name = PartialName(digest: Digest) | BlobName(digest: Digest) | TmpName(suffix: nat)

  /** What one system call does to the directory, the files or the lock table. */
  datatype Effect =
    | Nothing
    | MakeFile(name: Name, node: Ino)
    | SetFile(node: Ino, content: Bytes)
    | Unlink(name: Name)
    | Move(from: Name, to: Name)
    | Take(node: Ino)
    | Drop(node: Ino)

  datatype State = State(
    files: map<Ino, Bytes>,
    dir: map<Name, Ino>,
    locks: map<Ino, Pid>,
    procs: map<Pid, Phase>)
  {
    function Phase(p: Pid): Phase {
      if p in procs then procs[p] else Idle
    }

    /** Process `p` performs `effect` and moves on to `phase`. */
    function Do(p: Pid, effect: Effect, phase: Phase): State {
      var s := this.(procs := procs[p := phase]);
      match effect
      case Nothing => s
      case MakeFile(name, node) => s.(files := files[node := []], dir := dir[name := node])
      case SetFile(node, content) => s.(files := files[node := content])
      case Unlink(name) => s.(dir := dir - {name})
      // rename(2): `to` now names the inode `from` named, whatever `to` named before.
      case Move(from, to) => if from in dir then s.(dir := (dir - {from})[to := dir[from]]) else s
      case Take(node) => s.(locks := locks[node := p])
      // Closing a file releases the lock its own open holds and no other.
      case Drop(node) => if node in locks && locks[node] == p then s.(locks := locks - {node}) else s
    }
  }

  datatype Event =
    | FetchBegin(desc: Desc)
    | OpenPartial(node: Ino)
    | Flock
    | SameFile
    | CheckHas
    | StatSize
    | Truncate
    | HashRead(n: nat)
    | HashDone
    | SrcRead(data: Bytes, err: ReadErr)
    | Write(n: nat)
    | WriteDone
    | Compare
    | Discard(works: bool)
    | Commit(works: bool)
    | Close
    | Fail
    | Crash
    | PutOpen(suffix: nat, node: Ino)
    | PutWrite(data: Bytes)
    | PutSpoil(data: Bytes)
    | PutClose
    | PutHas
    | PutRename(works: bool)
    | PutCleanup

  /** What the loop does once a chunk and the error beside it are dealt with. */
  function AfterChunk(w: Phase): Phase
    requires w.Writing?
  {
    var done := w.done + |w.chunk|;
    if w.rerr.NoErr? || (w.rerr.Eof? && done == w.job.desc.size) then
      Copying(w.job, w.ino, w.resumed, done, w.fed + w.chunk)
    else if w.rerr.Eof? then
      Discarding(w.job, w.ino, w.resumed)
    else
      Closing(w.job, w.ino, Finish)
  }

  /** What a process in phase `ph` does on event `e`, and where it goes; None when it cannot. */
  function Act(c: Params, s: State, ph: Phase, e: Event): Option<(Effect, Phase)> {
    if e.Crash? then
      Some((if ph.HoldsLock() then Drop(ph.ino) else Nothing, Idle))
    else if ph.Idle? then ActIdle(s, e)
    else if ph.Opening? then ActOpening(s, ph, e)
    else if ph.Waiting? then ActWaiting(c, s, ph, e)
    else if ph.Puts() then ActPut(c, s, ph, e)
    else if ph.Closing? then ActClosing(ph, e)
    else if e.Fail? then Some((Nothing, Closing(ph.job, ph.ino, Finish)))
    else if ph.Hashing? || ph.Copying? || ph.Writing? then ActStream(c, s, ph, e)
    else if ph.Matched? || ph.Discarding? then ActEnd(ph, e)
    else ActBefore(s, ph, e)
  }

  /** A new call: Fetch of a blob the cache lacks, or Put. */
  function ActIdle(s: State, e: Event): Option<(Effect, Phase)> {
    match e
    case FetchBegin(desc) =>
      if BlobName(desc.digest) in s.dir then None else Some((Nothing, Opening(Job(desc, false))))
    case PutOpen(suffix, node) =>
      if TmpName(suffix) in s.dir || node in s.files then None
      else Some((MakeFile(TmpName(suffix), node), Spooling(suffix, node, [])))
    case _ => None
  }

  /** Open the partial file, creating it when absent. */
  function ActOpening(s: State, ph: Phase, e: Event): Option<(Effect, Phase)>
    requires ph.Opening?
  {
    match e
    case OpenPartial(node) =>
      var name := PartialName(ph.job.desc.digest);
      if name in s.dir then Some((Nothing, Waiting(ph.job, s.dir[name])))
      else if node in s.files then None
      else Some((MakeFile(name, node), Waiting(ph.job, node)))
    case Fail => Some((Nothing, Idle))
    case _ => None
  }

  /** flock waits until no other open file holds the lock. */
  function ActWaiting(c: Params, s: State, ph: Phase, e: Event): Option<(Effect, Phase)>
    requires ph.Waiting?
  {
    match e
    case Flock =>
      if !c.unix then Some((Nothing, Locked(ph.job, ph.ino)))
      else if ph.ino in s.locks then None
      else Some((Take(ph.ino), Locked(ph.job, ph.ino)))
    case Fail => Some((Nothing, Idle))
    case _ => None
  }

  /** From the granted lock to the decision what of the partial file to reuse. */
  function ActBefore(s: State, ph: Phase, e: Event): Option<(Effect, Phase)>
    requires ph.Locked? || ph.Checked? || ph.Sizing? || ph.Oversize?
  {
    var job, ino := ph.job, ph.ino;
    var name := PartialName(job.desc.digest);
    match e
    case SameFile =>
      if !ph.Locked? then None
      else if name in s.dir && s.dir[name] == ino then Some((Nothing, Checked(job, ino)))
      else Some((Nothing, Closing(job, ino, Reopen)))
    case CheckHas =>
      if !ph.Checked? then None
      else if BlobName(job.desc.digest) in s.dir then Some((Nothing, Closing(job, ino, Finish)))
      else Some((Nothing, Sizing(job, ino)))
    case StatSize =>
      if !ph.Sizing? || ino !in s.files then None
      else if |s.files[ino]| > job.desc.size then Some((Nothing, Oversize(job, ino)))
      else Some((Nothing, Hashing(job, ino, |s.files[ino]|, [])))
    case Truncate =>
      if !ph.Oversize? then None else Some((SetFile(ino, []), Hashing(job, ino, 0, [])))
    case _ => None
  }

  /** Hash the reused prefix, then read, write and hash chunk by chunk, then compare. */
  function ActStream(c: Params, s: State, ph: Phase, e: Event): Option<(Effect, Phase)>
    requires ph.Hashing? || ph.Copying? || ph.Writing?
  {
    var job, ino, done, fed := ph.job, ph.ino, ph.done, ph.fed;
    if ino !in s.files then None
    else
      match e
      case HashRead(n) =>
        if !ph.Hashing? || n == 0 || |fed| + n > Min(done, |s.files[ino]|) then None
        else Some((Nothing, Hashing(job, ino, done, fed + s.files[ino][|fed|..|fed| + n])))
      case HashDone =>
        if !ph.Hashing? || |fed| < Min(done, |s.files[ino]|) then None
        else Some((Nothing, Copying(job, ino, done > 0, done, fed)))
      case SrcRead(data, err) =>
        if !ph.Copying? || done >= job.desc.size || |data| > job.desc.size - done then None
        else Some((Nothing, Writing(job, ino, ph.resumed, done, fed, data, 0, err)))
      case Write(n) =>
        if !ph.Writing? || n == 0 || ph.k + n > |ph.chunk| then None
        else
          Some((SetFile(ino, WriteAt(s.files[ino], done + ph.k, ph.chunk[ph.k..ph.k + n])),
            Writing(job, ino, ph.resumed, done, fed, ph.chunk, ph.k + n, ph.rerr)))
      case WriteDone =>
        if !ph.Writing? || ph.k != |ph.chunk| then None else Some((Nothing, AfterChunk(ph)))
      case Compare =>
        if !ph.Copying? || done < job.desc.size then None
        else if c.hash(fed) == job.desc.digest then Some((Nothing, Matched(job, ino)))
        else Some((Nothing, Discarding(job, ino, ph.resumed)))
      case _ => None
  }

  /** Remove or rename the partial file by name; either call may fail. */
  function ActEnd(ph: Phase, e: Event): Option<(Effect, Phase)>
    requires ph.Matched? || ph.Discarding?
  {
    var job, ino := ph.job, ph.ino;
    var name := PartialName(job.desc.digest);
    match e
    case Discard(works) =>
      if !ph.Discarding? then None
      else
        Some((if works then Unlink(name) else Nothing,
          Closing(job, ino, if ph.resumed && !job.second then Retry else Finish)))
    case Commit(works) =>
      if !ph.Matched? then None
      else
        Some((if works then Move(name, BlobName(job.desc.digest)) else Nothing, Closing(job, ino, Finish)))
    case _ => None
  }

  /** Closing the file releases the lock; the call ends, starts over, or reopens. */
  function ActClosing(ph: Phase, e: Event): Option<(Effect, Phase)>
    requires ph.Closing?
  {
    if !e.Close? then None
    else
      Some((Drop(ph.ino),
        match ph.after
        case Finish => Idle
        case Retry => Opening(Job(ph.job.desc, true))
        case Reopen => Opening(ph.job)))
  }

  /** Put: spool into a scratch file, hash, and rename unless the blob is already there. */
  function ActPut(c: Params, s: State, ph: Phase, e: Event): Option<(Effect, Phase)>
    requires ph.Puts()
  {
    var name, out := ph.name, ph.out;
    match e
    case PutWrite(data) =>
      if !ph.Spooling? || out !in s.files then None
      else
        Some((SetFile(out, WriteAt(s.files[out], |ph.stream|, data)), Spooling(name, out, ph.stream + data)))
    case PutSpoil(data) =>
      if !ph.Spooling? || out !in s.files then None
      else Some((SetFile(out, WriteAt(s.files[out], |ph.stream|, data)), Cleanup(name, out)))
    case PutClose =>
      if !ph.Spooling? then None else Some((Nothing, Spooled(name, out, c.hash(ph.stream))))
    case PutHas =>
      if !ph.Spooled? then None
      else if BlobName(ph.dgst) in s.dir then Some((Nothing, Cleanup(name, out)))
      else Some((Nothing, Renaming(name, out, ph.dgst)))
    case PutRename(works) =>
      if !ph.Renaming? then None
      else if works && TmpName(name) in s.dir then Some((Move(TmpName(name), BlobName(ph.dgst)), Idle))
      else Some((Nothing, Cleanup(name, out)))
    case PutCleanup => if !ph.Cleanup? then None else Some((Unlink(TmpName(name)), Idle))
    case Fail => Some((Nothing, Cleanup(name, out)))
    case _ => None
  }

  /** The successor of `s` when process `p` takes event `e`, or None when it cannot. */
  function Step(c: Params, s: State, p: Pid, e: Event): Option<State> {
    match Act(c, s, s.Phase(p), e)
    case None => None
    case Some((effect, phase)) => Some(s.Do(p, effect, phase))
  }

  /** The state after a schedule of events, or None when some event cannot happen. */
  function Exec(c: Params, s: State, run: seq<(Pid, Event)>): Option<State>
    decreases |run|
  {
    if run == [] then Some(s)
    else
      match Step(c, s, run[0].0, run[0].1)
      case None => None
      case Some(s') => Exec(c, s', run[1..])
  }

  // ---------------------------------------------------------------------------------------------
  // The invariant

  /** Every name refers to an existing inode and no inode has two names. */
  ghost predicate NamesOK(s: State) {
    && (forall a | a in s.dir :: s.dir[a] in s.files)
    && (forall a, b | a in s.dir && b in s.dir && s.dir[a] == s.dir[b] :: a == b)
  }

  /** A lock is held by exactly the process whose phase says so. */
  ghost predicate LocksOK(s: State) {
    && (forall i | i in s.locks :: s.Phase(s.locks[i]).HoldsLock() && s.Phase(s.locks[i]).ino == i)
    && (forall p: Pid | s.Phase(p).HoldsLock() :: s.Phase(p).ino in s.locks && s.locks[s.Phase(p).ino] == p)
  }

  /** Everything under blobs/ hashes to its name. */
  ghost predicate BlobsVerified(c: Params, s: State) {
    forall d | BlobName(d) in s.dir && s.dir[BlobName(d)] in s.files :: c.hash(s.files[s.dir[BlobName(d)]]) == d
  }

  /** What phase `ph` of a process says about its open files is true of `s`. */
  ghost predicate PhaseOK(c: Params, s: State, ph: Phase) {
    && (ph.Waiting? || ph.HoldsLock() ==> ph.ino in s.files)
    && (ph.Critical() ==>
      // Between the SameFile check and commit, discard or close, the partial name is the locked file.
      && PartialName(ph.job.desc.digest) in s.dir
      && s.dir[PartialName(ph.job.desc.digest)] == ph.ino
      && ph.ino in s.files
      && StreamOK(c, s.files[ph.ino], ph))
    && (ph.Puts() ==>
      && TmpName(ph.name) in s.dir
      && s.dir[TmpName(ph.name)] == ph.out
      && ph.out in s.files
      && (ph.Spooling? ==> s.files[ph.out] == ph.stream)
      && (ph.Spooled? || ph.Renaming? ==> c.hash(s.files[ph.out]) == ph.dgst))
  }

  /** The digester was fed exactly the bytes of the partial file `file`. */
  ghost predicate StreamOK(c: Params, file: Bytes, ph: Phase) {
    && (ph.Hashing? ==> ph.done == |file| <= ph.job.desc.size && ph.fed <= file)
    && (ph.Copying? ==> ph.done <= ph.job.desc.size && ph.done == |ph.fed| && ph.fed == file)
    && (ph.Writing? ==>
      && ph.done == |ph.fed|
      && ph.k <= |ph.chunk|
      && ph.done + |ph.chunk| <= ph.job.desc.size
      && file == ph.fed + ph.chunk[..ph.k])
    && (ph.Matched? ==> c.hash(file) == ph.job.desc.digest)
  }

  /** No two Put calls share a scratch name. */
  ghost predicate ScratchOK(s: State) {
    forall p: Pid, q: Pid | s.Phase(p).Puts() && s.Phase(q).Puts() && s.Phase(p).name == s.Phase(q).name :: p == q
  }

  ghost predicate Inv(c: Params, s: State) {
    && NamesOK(s)
    && LocksOK(s)
    && BlobsVerified(c, s)
    && ScratchOK(s)
    && (forall p: Pid :: PhaseOK(c, s, s.Phase(p)))
  }

  /** No process runs; partial and scratch files hold anything; blobs are verified. */
  ghost predicate Init(c: Params, s: State) {
    && s.procs == map[]
    && s.locks == map[]
    && NamesOK(s)
    && BlobsVerified(c, s)
  }

  lemma InitEstablishes(c: Params, s: State)
    requires Init(c, s)
    ensures Inv(c, s)
  {
  }

  /** What the protocol lets process `p` do to shared state: only files and names it owns. */
  ghost predicate Legal(c: Params, s: State, p: Pid, effect: Effect) {
    var ph := s.Phase(p);
    match effect
    case Nothing => true
    case MakeFile(name, node) => name !in s.dir && node !in s.files && !name.BlobName?
    case SetFile(node, _) => node in s.files && ((ph.Critical() && ph.ino == node) || (ph.Puts() && ph.out == node))
    case Unlink(name) => Owns(ph, name)
    case Move(from, to) =>
      && Owns(ph, from)
      && from in s.dir && s.dir[from] in s.files
      && to.BlobName? && c.hash(s.files[s.dir[from]]) == to.digest
    case Take(node) => node in s.files && node !in s.locks && !ph.HoldsLock()
    case Drop(node) => ph.HoldsLock() && ph.ino == node
  }

  ghost predicate Owns(ph: Phase, name: Name) {
    || (ph.Critical() && name == PartialName(ph.job.desc.digest))
    || (ph.Puts() && name == TmpName(ph.name))
  }

  /** How the lock a process holds changes with its effect. */
  ghost predicate LockFlow(ph: Phase, effect: Effect, ph': Phase) {
    match effect
    case Take(node) => ph'.HoldsLock() && ph'.ino == node
    case Drop(_) => !ph'.HoldsLock()
    case _ => ph.HoldsLock() == ph'.HoldsLock() && (ph.HoldsLock() ==> ph.ino == ph'.ino)
  }

  /** How the scratch name a process owns changes with its effect. */
  ghost predicate ScratchFlow(ph: Phase, effect: Effect, ph': Phase) {
    ph'.Puts() ==> (ph.Puts() && ph.name == ph'.name) || (effect.MakeFile? && effect.name == TmpName(ph'.name))
  }

  /** An action the invariant survives: legal towards others, true to the process's own memory. */
  ghost predicate Good(c: Params, s: State, p: Pid, act: Option<(Effect, Phase)>) {
    act.Some? ==>
      var (effect, ph') := act.value;
      && Legal(c, s, p, effect)
      && LockFlow(s.Phase(p), effect, ph')
      && ScratchFlow(s.Phase(p), effect, ph')
      && PhaseOK(c, s.Do(p, effect, ph'), ph')
  }

  lemma IdleIsGood(c: Params, s: State, p: Pid, e: Event)
    requires NamesOK(s) && s.Phase(p).Idle?
    ensures Good(c, s, p, ActIdle(s, e))
  {
  }

  lemma OpeningIsGood(c: Params, s: State, p: Pid, e: Event)
    requires NamesOK(s) && s.Phase(p).Opening?
    ensures Good(c, s, p, ActOpening(s, s.Phase(p), e))
  {
  }

  lemma WaitingIsGood(c: Params, s: State, p: Pid, e: Event)
    requires c.unix && PhaseOK(c, s, s.Phase(p)) && s.Phase(p).Waiting?
    ensures Good(c, s, p, ActWaiting(c, s, s.Phase(p), e))
  {
  }

  lemma BeforeIsGood(c: Params, s: State, p: Pid, e: Event)
    requires PhaseOK(c, s, s.Phase(p))
    requires s.Phase(p).Locked? || s.Phase(p).Checked? || s.Phase(p).Sizing? || s.Phase(p).Oversize?
    ensures Good(c, s, p, ActBefore(s, s.Phase(p), e))
  {
  }

  lemma HashingIsGood(c: Params, s: State, p: Pid, e: Event)
    requires PhaseOK(c, s, s.Phase(p)) && s.Phase(p).Hashing?
    ensures Good(c, s, p, ActStream(c, s, s.Phase(p), e))
  {
  }

  lemma CopyingIsGood(c: Params, s: State, p: Pid, e: Event)
    requires PhaseOK(c, s, s.Phase(p)) && s.Phase(p).Copying?
    ensures Good(c, s, p, ActStream(c, s, s.Phase(p), e))
  {
  }

  lemma WritingIsGood(c: Params, s: State, p: Pid, e: Event)
    requires PhaseOK(c, s, s.Phase(p)) && s.Phase(p).Writing?
    ensures Good(c, s, p, ActStream(c, s, s.Phase(p), e))
  {
  }

  lemma EndIsGood(c: Params, s: State, p: Pid, e: Event)
    requires PhaseOK(c, s, s.Phase(p))
    ensures s.Phase(p).Matched? || s.Phase(p).Discarding? ==> Good(c, s, p, ActEnd(s.Phase(p), e))
    ensures s.Phase(p).Closing? ==> Good(c, s, p, ActClosing(s.Phase(p), e))
  {
  }

  lemma PutIsGood(c: Params, s: State, p: Pid, e: Event)
    requires PhaseOK(c, s, s.Phase(p)) && s.Phase(p).Puts()
    ensures Good(c, s, p, ActPut(c, s, s.Phase(p), e))
  {
  }

  lemma ActIsGood(c: Params, s: State, p: Pid, e: Event)
    requires c.unix && Inv(c, s)
    ensures Good(c, s, p, Act(c, s, s.Phase(p), e))
  {
    var ph := s.Phase(p);
    assert PhaseOK(c, s, ph);
    if ph.Idle? {
      IdleIsGood(c, s, p, e);
    } else if ph.Opening? {
      OpeningIsGood(c, s, p, e);
    } else if ph.Waiting? {
      WaitingIsGood(c, s, p, e);
    } else if ph.Puts() {
      PutIsGood(c, s, p, e);
    } else if ph.Hashing? {
      HashingIsGood(c, s, p, e);
    } else if ph.Copying? {
      CopyingIsGood(c, s, p, e);
    } else if ph.Writing? {
      WritingIsGood(c, s, p, e);
    } else if ph.Matched? || ph.Discarding? || ph.Closing? {
      EndIsGood(c, s, p, e);
    } else {
      BeforeIsGood(c, s, p, e);
    }
  }

  lemma LegalKeepsOthers(c: Params, s: State, p: Pid, effect: Effect, ph': Phase, q: Pid)
    requires Inv(c, s) && Legal(c, s, p, effect) && q != p
    ensures PhaseOK(c, s.Do(p, effect, ph'), s.Phase(q))
  {
    assert PhaseOK(c, s, s.Phase(p)) && PhaseOK(c, s, s.Phase(q));
  }

  lemma LegalKeepsLocks(c: Params, s: State, p: Pid, effect: Effect, ph': Phase)
    requires LocksOK(s) && Legal(c, s, p, effect) && LockFlow(s.Phase(p), effect, ph')
    ensures LocksOK(s.Do(p, effect, ph'))
  {
    var s' := s.Do(p, effect, ph');
    assert forall q: Pid | q != p :: s'.Phase(q) == s.Phase(q);
  }

  lemma LegalKeepsNames(c: Params, s: State, p: Pid, effect: Effect, ph': Phase)
    requires NamesOK(s) && Legal(c, s, p, effect)
    ensures NamesOK(s.Do(p, effect, ph'))
  {
  }

  lemma LegalKeepsBlobs(c: Params, s: State, p: Pid, effect: Effect, ph': Phase)
    requires NamesOK(s) && BlobsVerified(c, s) && PhaseOK(c, s, s.Phase(p)) && Legal(c, s, p, effect)
    ensures BlobsVerified(c, s.Do(p, effect, ph'))
  {
  }

  lemma LegalKeepsScratch(c: Params, s: State, p: Pid, effect: Effect, ph': Phase)
    requires Inv(c, s) && Legal(c, s, p, effect) && ScratchFlow(s.Phase(p), effect, ph')
    ensures ScratchOK(s.Do(p, effect, ph'))
  {
    var s' := s.Do(p, effect, ph');
    forall q: Pid
      ensures PhaseOK(c, s, s.Phase(q)) && (q != p ==> s'.Phase(q) == s.Phase(q))
    {
    }
  }

  lemma LegalKeepsPhases(c: Params, s: State, p: Pid, effect: Effect, ph': Phase)
    requires Inv(c, s) && Legal(c, s, p, effect) && PhaseOK(c, s.Do(p, effect, ph'), ph')
    ensures forall q: Pid :: PhaseOK(c, s.Do(p, effect, ph'), s.Do(p, effect, ph').Phase(q))
  {
    forall q: Pid
      ensures PhaseOK(c, s.Do(p, effect, ph'), s.Do(p, effect, ph').Phase(q))
    {
      if q != p {
        LegalKeepsOthers(c, s, p, effect, ph', q);
      }
    }
  }

  /** What a good action does to the state keeps every part of the invariant. */
  lemma GoodKeepsInv(c: Params, s: State, p: Pid, effect: Effect, ph': Phase)
    requires Inv(c, s) && Good(c, s, p, Some((effect, ph')))
    ensures Inv(c, s.Do(p, effect, ph'))
  {
    assert PhaseOK(c, s, s.Phase(p));
    LegalKeepsNames(c, s, p, effect, ph');
    LegalKeepsBlobs(c, s, p, effect, ph');
    LegalKeepsScratch(c, s, p, effect, ph');
    LegalKeepsLocks(c, s, p, effect, ph');
    LegalKeepsPhases(c, s, p, effect, ph');
  }

  lemma StepKeepsInv(c: Params, s: State, p: Pid, e: Event)
    requires c.unix && Inv(c, s) && Step(c, s, p, e).Some?
    ensures Inv(c, Step(c, s, p, e).value)
  {
    ActIsGood(c, s, p, e);
    GoodKeepsInv(c, s, p, Act(c, s, s.Phase(p), e).value.0, Act(c, s, s.Phase(p), e).value.1);
  }
}
