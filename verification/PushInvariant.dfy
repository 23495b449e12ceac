/** What every step of a push keeps: tokens, workers, failures and the outcomes of commits. */
module PushInvariant {
  import opened Content
  import opened ImageModel
  import SP = StoreProtocol
  import opened StoreModel = Store
  import opened Errors
  import opened Planning
  import opened PushProtocol

  // ---------------------------------------------------------------------------------------------
  // Counting

  function StepsLeft(st: Status): nat {
    match st case Queued => 4 case Reading => 3 case Probing => 2 case Creating => 1 case Ended => 0
  }

  function InFlight(st: Status): nat {
    if st.Queued? || st.Ended? then 0 else 1
  }

  function Total(f: Status -> nat, status: seq<Status>): nat {
    if status == [] then 0 else Total(f, status[..|status| - 1]) + f(status[|status| - 1])
  }

  lemma {:induction false} TotalUpdate(f: Status -> nat, status: seq<Status>, i: nat, st: Status)
    requires i < |status|
    ensures Total(f, status[i := st]) == Total(f, status) - f(status[i]) + f(st)
    decreases |status|
  {
    var k := |status| - 1;
    if i < k {
      TotalUpdate(f, status[..k], i, st);
      assert status[i := st][..k] == status[..k][i := st];
    } else {
      assert status[i := st][..k] == status[..k];
    }
  }

  lemma {:induction false} SomeCounted(f: Status -> nat, status: seq<Status>) returns (i: nat)
    requires Total(f, status) > 0
    ensures i < |status| && f(status[i]) > 0
    decreases |status|
  {
    var k := |status| - 1;
    if f(status[k]) > 0 {
      i := k;
    } else {
      i := SomeCounted(f, status[..k]);
    }
  }

  lemma {:induction false} NoneLeft(status: seq<Status>)
    requires Total(StepsLeft, status) == 0
    ensures forall i | 0 <= i < |status| :: status[i].Ended?
    decreases |status|
  {
    if status != [] {
      NoneLeft(status[..|status| - 1]);
    }
  }

  lemma {:induction false} NothingInFlight(status: seq<Status>, i: nat)
    requires Total(InFlight, status) == 0 && i < |status|
    ensures InFlight(status[i]) == 0
    decreases |status|
  {
    var k := |status| - 1;
    if i < k {
      NothingInFlight(status[..k], i);
    }
  }

  lemma {:induction false} AllQueued(n: nat)
    ensures Total(InFlight, seq(n, _ => Queued)) == 0
    decreases n
  {
    if n > 0 {
      AllQueued(n - 1);
      assert seq(n, _ => Queued)[..n - 1] == seq(n - 1, _ => Queued);
    }
  }

  // ---------------------------------------------------------------------------------------------
  // The invariant

  ghost predicate ParamsOK(c: Params) {
    IndexRoundTrip(c.w) && c.uploads == Firsts(AllMissing(c.plan)) && c.capacity > 0
  }

  /** What worker i's process is doing. */
  ghost predicate WorkerAt(c: Params, i: nat, st: Status, ph: Phase)
    requires i < |c.uploads|
  {
    match st
    case Probing =>
      Readable(c, i) && ValidDigest(c.uploads[i].desc.digest) && ph == SP.AtProbe(c.uploads[i].desc, Body(c, i))
    case Creating =>
      Readable(c, i) && ValidDigest(c.uploads[i].desc.digest) && ph == SP.AtCreate(c.uploads[i].desc, Body(c, i))
    case _ => ph.Over()
  }

  ghost predicate WorkersOK(c: Params, status: seq<Status>, s: State) {
    && |status| == |c.uploads|
    && forall i | 0 <= i < |status| :: WorkerAt(c, i, status[i], s.Phase(Worker(c, i)))
  }

  /** A token is held for exactly the uploads in flight; uploads leave the queue from its front. */
  ghost predicate TokensOK(c: Params, a: Snap) {
    && a.held == Total(InFlight, a.status) && a.held <= c.capacity
    && forall i, j | 0 <= i < j < |a.status| && a.status[i].Queued? :: a.status[j].Queued?
  }

  /** Exactly the uploads that ended without storing their blob have failed; without faults, only unfit ones. */
  ghost predicate FailedOK(c: Params, a: Snap) {
    && NoDuplicates(a.failed)
    && (forall i | i in a.failed :: i < |a.status| && a.status[i].Ended? && (!a.faulty ==> !Uploadable(c, i)))
    && (forall i | 0 <= i < |a.status| && i < |c.uploads| && a.status[i].Ended? && i !in a.failed ::
          SP.BlobEntry(c.uploads[i].desc.digest) in a.s.entries)
  }

  ghost predicate OwnOK(c: Params, a: Snap) {
    && (forall p: Pid | p > Committer(c) :: a.s.Phase(p).Over())
    && (!a.busy ==> a.s.Phase(Committer(c)).Over())
  }

  /** None of the blobs the entry lacked failed to upload. */
  ghost predicate NoneFailed(c: Params, failed: seq<nat>, e: Entry) {
    forall i, d | i in failed && i < |c.uploads| && d in e.missing :: c.uploads[i].desc.digest != d.digest
  }

  /** Nor is anything else wrong with the entry's image. */
  ghost predicate Good(c: Params, start: SP.Entries, failed: seq<nat>, k: nat) {
    CollisionFree(c.w.hash) && k < |c.plan| && Ready(c.w, start, c.plan[k]) && NoneFailed(c, failed, c.plan[k])
  }

  /** An entry's outcome, and what the store says about it. */
  ghost predicate OutcomeOK(c: Params, start: SP.Entries, a: Snap, k: nat)
    requires k < |a.outcomes| <= |c.plan|
  {
    var job := JobOf(c.plan[k].image);
    match a.outcomes[k]
    case Skipped => a.cancelled
    case Done(result) =>
      && (result.Ok? ==> SP.Holds(c.w, a.s.entries, job.Leaf(), job.manifest.digest))
      && (result == SP.Err(SP.Conflict) ==> HoldsOther(c.w, a.s.entries, job.Leaf(), job.manifest.digest))
      && (result == SP.Err(SP.BackendFailure) ==> a.faulty)
      && (Good(c, start, a.failed, k) ==> !Permanent(result))
  }

  /** A commit error that is neither a conflict nor the backend's. */
  predicate Permanent(r: SP.Result) {
    r.Err? && r.error != SP.Conflict && r.error != SP.BackendFailure
  }

  ghost predicate OutcomesOK(c: Params, start: SP.Entries, a: Snap) {
    |a.outcomes| <= |c.plan| && forall k: nat | k < |a.outcomes| :: OutcomeOK(c, start, a, k)
  }

  /** Commits begin when the uploads have ended; the committer works for the next entry. */
  ghost predicate CommitterOK(c: Params, start: SP.Entries, a: Snap) {
    && (a.busy || a.outcomes != [] ==> AllEnded(a.status))
    && (a.busy ==>
      && |a.outcomes| < |c.plan|
      && var ph, job := a.s.Phase(Committer(c)), JobOf(c.plan[|a.outcomes|].image);
      && ph.Commits() && !ph.Over() && ph.job == job
      && (Good(c, start, a.failed, |a.outcomes|) ==> OnTrack(c.w, a.s.entries, job, ph)))
  }

  ghost predicate StoreOK(c: Params, start: SP.Entries, a: Snap) {
    SP.Inv(c.w, a.s) && SP.Grows(start, a.s.entries)
  }

  ghost predicate PInv(c: Params, start: SP.Entries, a: Snap) {
    && StoreOK(c, start, a) && WorkersOK(c, a.status, a.s) && TokensOK(c, a) && FailedOK(c, a)
    && OwnOK(c, a) && OutcomesOK(c, start, a) && CommitterOK(c, start, a)
  }

  lemma StartOK(c: Params, s: State)
    requires ParamsOK(c) && SP.Inv(c.w, s) && forall p: Pid | p >= c.base :: s.Phase(p).Over()
    ensures PInv(c, s.entries, Start(c, s))
  {
    AllQueued(|c.uploads|);
  }

  // ---------------------------------------------------------------------------------------------
  // Steps of a process, seen from the others

  ghost predicate OnlyPhase(s: State, s': State, p: Pid) {
    forall q: Pid | q != p :: s'.Phase(q) == s.Phase(q)
  }

  lemma StepIsLocal(w: World, s: State, p: Pid, e: SP.Event)
    requires IndexRoundTrip(w) && SP.Inv(w, s) && SP.Step(w, s, p, e).Some?
    ensures var s' := SP.Step(w, s, p, e).value;
      SP.Inv(w, s') && SP.Grows(s.entries, s'.entries) && OnlyPhase(s, s', p)
  {
    SP.StepKeepsInv(w, s, p, e);
  }

  lemma CallMoves(w: World, s: State, p: Pid, e: SP.Event)
    requires IsCall(e) && SP.Step(w, s, p, e).Some?
    ensures var s' := SP.Step(w, s, p, e).value; var ph := s.Phase(p);
      && !ph.Over()
      && s'.Phase(p) == (if e.CallReturns? then SP.Call(w, s.entries, ph).1 else SP.Failed(ph))
      && (e.CallReturns? ==> s'.entries == SP.Call(w, s.entries, ph).0)
  {
  }

  /** A worker's call: from the probe to the create, or to the end. */
  lemma WorkerCallEnds(w: World, s: State, p: Pid, e: SP.Event)
    requires IsCall(e) && (s.Phase(p).AtProbe? || s.Phase(p).AtCreate?)
    ensures SP.Step(w, s, p, e).Some?
    ensures var ph := SP.Step(w, s, p, e).value.Phase(p); ph.Put? || (ph.AtCreate? && s.Phase(p).AtProbe?)
  {
  }

  /** A committer's call: Commit goes on with less to do, or answers. */
  lemma CommitterCallEnds(w: World, s: State, p: Pid, e: SP.Event)
    requires IsCall(e) && s.Phase(p).Commits() && !s.Phase(p).Over()
    ensures SP.Step(w, s, p, e).Some?
    ensures var ph := SP.Step(w, s, p, e).value.Phase(p); ph.Commits() && Shrinks(s.Phase(p), ph)
  {
    CallMoves(w, s, p, e);
    CallDecreases(w, s.entries, s.Phase(p));
    CommitCallEnds(w, s.entries, s.Phase(p));
  }

  // ---------------------------------------------------------------------------------------------
  // Growth of the store and of the flags

  lemma LaterOutcome(c: Params, start: SP.Entries, a: Snap, b: Snap, k: nat)
    requires k < |a.outcomes| <= |b.outcomes| <= |c.plan| && a.outcomes[k] == b.outcomes[k] && a.failed == b.failed
    requires SP.Grows(a.s.entries, b.s.entries) && (a.cancelled ==> b.cancelled) && (a.faulty ==> b.faulty)
    requires OutcomeOK(c, start, a, k)
    ensures OutcomeOK(c, start, b, k)
  {
    var leaf := JobOf(c.plan[k].image).Leaf();
    if SP.IndexEntry(leaf) in a.s.entries {
      assert SP.LeafManifest(c.w, b.s.entries, leaf) == SP.LeafManifest(c.w, a.s.entries, leaf);
    }
  }

  /** A step that leaves the push's own affairs alone: other processes, the context. */
  lemma QuietStep(c: Params, start: SP.Entries, a: Snap, s': State, cancelled: bool)
    requires PInv(c, start, a) && SP.Inv(c.w, s') && SP.Grows(a.s.entries, s'.entries)
    requires (forall q: Pid | q >= c.base :: s'.Phase(q) == a.s.Phase(q)) && (a.cancelled ==> cancelled)
    ensures PInv(c, start, a.(s := s', cancelled := cancelled))
  {
    var b := a.(s := s', cancelled := cancelled);
    QuietWorkers(c, a.status, a.s, s');
    forall k: nat | k < |b.outcomes| ensures OutcomeOK(c, start, b, k) {
      LaterOutcome(c, start, a, b, k);
    }
    if a.busy && Good(c, start, a.failed, |a.outcomes|) {
      GrowthKeepsCommittable(c.w, a.s.entries, s'.entries, JobOf(c.plan[|a.outcomes|].image));
    }
  }

  lemma QuietWorkers(c: Params, status: seq<Status>, s: State, s': State)
    requires WorkersOK(c, status, s) && forall q: Pid | q >= c.base :: s'.Phase(q) == s.Phase(q)
    ensures WorkersOK(c, status, s')
  {
    forall i | 0 <= i < |status| ensures WorkerAt(c, i, status[i], s'.Phase(Worker(c, i))) {
      assert WorkerAt(c, i, status[i], s.Phase(Worker(c, i)));
    }
  }

  lemma ForeignKeeps(c: Params, start: SP.Entries, a: Snap, p: Pid, e: SP.Event)
    requires ParamsOK(c) && PInv(c, start, a) && Step(c, a, Foreign(p, e)).Some?
    ensures PInv(c, start, Step(c, a, Foreign(p, e)).value)
  {
    StepIsLocal(c.w, a.s, p, e);
    QuietStep(c, start, a, SP.Step(c.w, a.s, p, e).value, a.cancelled);
  }

  lemma CancelKeeps(c: Params, start: SP.Entries, a: Snap)
    requires PInv(c, start, a)
    ensures PInv(c, start, Step(c, a, Cancel).value)
  {
    QuietStep(c, start, a, a.s, true);
  }

  // ---------------------------------------------------------------------------------------------
  // Uploads

  lemma AcquireKeeps(c: Params, start: SP.Entries, a: Snap)
    requires PInv(c, start, a) && Step(c, a, Acquire).Some?
    ensures PInv(c, start, Step(c, a, Acquire).value)
  {
    var i := NextQueued(a.status);
    var b := Step(c, a, Acquire).value;
    TotalUpdate(InFlight, a.status, i, Reading);
    ChangedWorker(c, a.status, a.s, a.s, i, Reading);
    assert !AllEnded(a.status);
  }

  lemma ChangedWorker(c: Params, status: seq<Status>, s: State, s': State, i: nat, st: Status)
    requires WorkersOK(c, status, s) && i < |status| && OnlyPhase(s, s', Worker(c, i))
    requires WorkerAt(c, i, st, s'.Phase(Worker(c, i))) || (st.Reading? && status[i].Queued? && s' == s)
    ensures WorkersOK(c, status[i := st], s')
  {
    assert WorkerAt(c, i, status[i], s.Phase(Worker(c, i)));
    forall k | 0 <= k < |status| ensures WorkerAt(c, k, status[i := st][k], s'.Phase(Worker(c, k))) {
      assert WorkerAt(c, k, status[k], s.Phase(Worker(c, k)));
    }
  }

  /** A worker in flight moves on with its token. */
  lemma MoveKeeps(c: Params, start: SP.Entries, a: Snap, b: Snap, i: nat, st: Status)
    requires PInv(c, start, a) && i < |a.status| && InFlight(a.status[i]) == 1 && InFlight(st) == 1
    requires b == a.(s := b.s, status := a.status[i := st], faulty := b.faulty) && (a.faulty ==> b.faulty)
    requires SP.Inv(c.w, b.s) && SP.Grows(a.s.entries, b.s.entries) && OnlyPhase(a.s, b.s, Worker(c, i))
    requires WorkerAt(c, i, st, b.s.Phase(Worker(c, i)))
    ensures PInv(c, start, b)
  {
    TotalUpdate(InFlight, a.status, i, st);
    ChangedWorker(c, a.status, a.s, b.s, i, st);
    assert !AllEnded(a.status);
  }

  /** A worker ends: its token is back, its blob is stored or its failure is noted. */
  lemma FinishKeeps(c: Params, start: SP.Entries, a: Snap, s': State, faulty: bool, i: nat, ok: bool)
    requires PInv(c, start, a) && i < |a.status| && InFlight(a.status[i]) == 1 && (a.faulty ==> faulty)
    requires SP.Inv(c.w, s') && SP.Grows(a.s.entries, s'.entries) && OnlyPhase(a.s, s', Worker(c, i))
    requires s'.Phase(Worker(c, i)).Over()
    requires ok ==> SP.BlobEntry(c.uploads[i].desc.digest) in s'.entries
    requires !ok && !faulty ==> !Uploadable(c, i)
    ensures PInv(c, start, Finish(a.(s := s', faulty := faulty), i, ok))
  {
    TotalUpdate(InFlight, a.status, i, Ended);
    ChangedWorker(c, a.status, a.s, s', i, Ended);
    assert !AllEnded(a.status);
    assert i !in a.failed;
  }

  lemma OpenKeeps(c: Params, start: SP.Entries, a: Snap, i: nat, works: bool)
    requires ParamsOK(c) && PInv(c, start, a) && OpenStep(c, a, i, works).Some?
    ensures PInv(c, start, OpenStep(c, a, i, works).value)
  {
    var p := Worker(c, i);
    assert WorkerAt(c, i, a.status[i], a.s.Phase(p));
    if !works || !Readable(c, i) {
      FinishKeeps(c, start, a, a.s, a.faulty || !works, i, false);
    } else {
      var begin := SP.BeginPut(c.uploads[i].desc, Body(c, i));
      var s' := SP.Step(c.w, a.s, p, begin).value;
      StepIsLocal(c.w, a.s, p, begin);
      if s'.Phase(p).AtProbe? {
        MoveKeeps(c, start, a, a.(s := s', status := a.status[i := Probing]), i, Probing);
      } else {
        FinishKeeps(c, start, a, s', a.faulty, i, false);
      }
    }
  }

  /** What a worker's call leads to. */
  lemma CallOfWorker(c: Params, a: Snap, i: nat, e: SP.Event)
    requires i < |c.uploads| && Readable(c, i) && ValidDigest(c.uploads[i].desc.digest) && IsCall(e)
    requires var ph := a.s.Phase(Worker(c, i));
      ph == SP.AtProbe(c.uploads[i].desc, Body(c, i)) || ph == SP.AtCreate(c.uploads[i].desc, Body(c, i))
    requires SP.Step(c.w, a.s, Worker(c, i), e).Some? && SP.Inv(c.w, SP.Step(c.w, a.s, Worker(c, i), e).value)
    ensures var s' := SP.Step(c.w, a.s, Worker(c, i), e).value; var ph := s'.Phase(Worker(c, i));
      || ph == SP.AtCreate(c.uploads[i].desc, Body(c, i))
      || (ph.Put? && ph.desc == c.uploads[i].desc
        && (ph.stored.Ok? ==> SP.BlobEntry(c.uploads[i].desc.digest) in s'.entries)
        && (!ph.stored.Ok? && e.CallReturns? ==> !Uploadable(c, i)))
  {
    CallMoves(c.w, a.s, Worker(c, i), e);
    var s' := SP.Step(c.w, a.s, Worker(c, i), e).value;
    assert SP.PhaseOK(c.w, s'.entries, s'.Phase(Worker(c, i)));
  }

  lemma StoreKeeps(c: Params, start: SP.Entries, a: Snap, i: nat, e: SP.Event)
    requires ParamsOK(c) && PInv(c, start, a) && StoreStep(c, a, i, e).Some?
    ensures PInv(c, start, StoreStep(c, a, i, e).value)
  {
    var p := Worker(c, i);
    assert WorkerAt(c, i, a.status[i], a.s.Phase(p));
    StepIsLocal(c.w, a.s, p, e);
    CallOfWorker(c, a, i, e);
    var s' := SP.Step(c.w, a.s, p, e).value;
    var faulty := a.faulty || !e.CallReturns?;
    if s'.Phase(p).AtCreate? {
      MoveKeeps(c, start, a, a.(s := s', faulty := faulty, status := a.status[i := Creating]), i, Creating);
    } else {
      FinishKeeps(c, start, a, s', faulty, i, s'.Phase(p).Put? && s'.Phase(p).stored.Ok?);
    }
  }

  // ---------------------------------------------------------------------------------------------
  // Commits

  /** Once the uploads have ended, an entry in order passes every check of Commit. */
  lemma GoodIsCommittable(c: Params, start: SP.Entries, a: Snap, k: nat)
    requires ParamsOK(c) && StoreOK(c, start, a) && |a.status| == |c.uploads| && FailedOK(c, a) && AllEnded(a.status)
    requires k < |c.plan| && Good(c, start, a.failed, k)
    ensures Committable(c.w, a.s.entries, JobOf(c.plan[k].image))
  {
    var e := c.plan[k];
    var m, cfg :| Sendable(c.w, e.image, m, cfg);
    ImageIsStored(c, start, a, k);
    StoredIsCommittable(c.w, a.s.entries, e.image, m, cfg);
  }

  /** Once the uploads have ended and none of an entry's failed, all blobs of its image are stored. */
  lemma ImageIsStored(c: Params, start: SP.Entries, a: Snap, k: nat)
    requires ParamsOK(c) && StoreOK(c, start, a) && |a.status| == |c.uploads| && FailedOK(c, a) && AllEnded(a.status)
    requires k < |c.plan| && Covered(c.w, start, c.plan[k]) && NoneFailed(c, a.failed, c.plan[k])
    requires HasManifest(c.w, c.plan[k].image)
    ensures AllStored(a.s.entries, ImageBlobs(c.w, c.plan[k].image).value)
  {
    var e := c.plan[k];
    var descs := ImageBlobs(c.w, e.image).value;
    ImageBlobsAre(c.w, e.image);
    forall j | 0 <= j < |descs| ensures SP.BlobEntry(descs[j].digest) in a.s.entries {
      var d := descs[j];
      assert d in descs && IsBlob(c.w, e.image, d);
      if d in e.present {
        PresentIsStored(c, start, a, k, d);
      } else {
        MissingIsStored(c, a, k, d);
      }
    }
  }

  lemma PresentIsStored(c: Params, start: SP.Entries, a: Snap, k: nat, d: Descriptor)
    requires StoreOK(c, start, a) && k < |c.plan| && AllStored(start, c.plan[k].present) && d in c.plan[k].present
    ensures SP.BlobEntry(d.digest) in a.s.entries
  {
    var j :| 0 <= j < |c.plan[k].present| && c.plan[k].present[j] == d;
    assert SP.BlobEntry(d.digest) in start;
  }

  lemma MissingIsStored(c: Params, a: Snap, k: nat, d: Descriptor)
    requires ParamsOK(c) && |a.status| == |c.uploads| && FailedOK(c, a) && AllEnded(a.status)
    requires k < |c.plan| && NoneFailed(c, a.failed, c.plan[k]) && d in c.plan[k].missing
    ensures SP.BlobEntry(d.digest) in a.s.entries
  {
    var i := UploadOf(c.plan, c.uploads, k, d);
    assert i !in a.failed;
  }

  /** The committer's process after a step, and the outcome it leaves when Commit is over. */
  lemma CommitMoves(c: Params, start: SP.Entries, a: Snap, b: Snap)
    requires ParamsOK(c) && PInv(c, start, a) && AllEnded(a.status) && |a.outcomes| < |c.plan|
    requires b == a.(s := b.s, faulty := b.faulty) && (a.faulty ==> b.faulty)
    requires SP.Inv(c.w, b.s) && SP.Grows(a.s.entries, b.s.entries) && OnlyPhase(a.s, b.s, Committer(c))
    requires CommitterNow(c, start, b)
    ensures PInv(c, start, AfterCommit(c, b))
  {
    OtherWorkers(c, a.status, a.s, b.s);
    assert OutcomesOK(c, start, b) by {
      forall k: nat | k < |b.outcomes| ensures OutcomeOK(c, start, b, k) {
        LaterOutcome(c, start, a, b, k);
      }
    }
    AfterCommitFits(c, start, b);
  }

  lemma AfterCommitFits(c: Params, start: SP.Entries, b: Snap)
    requires AllEnded(b.status) && |b.outcomes| < |c.plan| && OutcomesOK(c, start, b) && CommitterNow(c, start, b)
    ensures OutcomesOK(c, start, AfterCommit(c, b)) && CommitterOK(c, start, AfterCommit(c, b))
    ensures !AfterCommit(c, b).busy ==> b.s.Phase(Committer(c)).Over()
  {
    var d := AfterCommit(c, b);
    forall k: nat | k < |d.outcomes| ensures OutcomeOK(c, start, d, k) {
      if k < |b.outcomes| {
        LaterOutcome(c, start, b, d, k);
      }
    }
  }

  lemma OtherWorkers(c: Params, status: seq<Status>, s: State, s': State)
    requires WorkersOK(c, status, s) && OnlyPhase(s, s', Committer(c))
    ensures WorkersOK(c, status, s')
  {
    forall i | 0 <= i < |status| ensures WorkerAt(c, i, status[i], s'.Phase(Worker(c, i))) {
      assert WorkerAt(c, i, status[i], s.Phase(Worker(c, i)));
    }
  }

  /** The committer works on the next entry, or has just ended with an answer that fits the store. */
  ghost predicate CommitterNow(c: Params, start: SP.Entries, b: Snap)
    requires |b.outcomes| < |c.plan|
  {
    var ph, job := b.s.Phase(Committer(c)), JobOf(c.plan[|b.outcomes|].image);
    && ph.Commits() && ph.job == job
    && (Good(c, start, b.failed, |b.outcomes|) ==>
      OnTrack(c.w, b.s.entries, job, ph) || ph == SP.Committed(job, SP.Err(SP.BackendFailure)))
    && (ph.Committed? ==>
      && (ph.result.Ok? ==> SP.Holds(c.w, b.s.entries, job.Leaf(), job.manifest.digest))
      && (ph.result == SP.Err(SP.Conflict) ==> HoldsOther(c.w, b.s.entries, job.Leaf(), job.manifest.digest))
      && (ph.result == SP.Err(SP.BackendFailure) ==> b.faulty))
  }

  lemma BeginKeeps(c: Params, start: SP.Entries, a: Snap)
    requires ParamsOK(c) && PInv(c, start, a) && BeginStep(c, a).Some?
    ensures PInv(c, start, BeginStep(c, a).value)
  {
    var job := JobOf(c.plan[|a.outcomes|].image);
    var s' := SP.Step(c.w, a.s, Committer(c), SP.BeginCommit(job)).value;
    StepIsLocal(c.w, a.s, Committer(c), SP.BeginCommit(job));
    if Good(c, start, a.failed, |a.outcomes|) {
      GoodIsCommittable(c, start, a, |a.outcomes|);
    }
    CommitMoves(c, start, a, a.(s := s'));
  }

  /** One call of the committer. */
  lemma CommitCallFits(c: Params, start: SP.Entries, a: Snap, e: SP.Event)
    requires ParamsOK(c) && PInv(c, start, a) && a.busy && IsCall(e)
    requires SP.Step(c.w, a.s, Committer(c), e).Some?
    ensures CommitterNow(
      c, start, a.(s := SP.Step(c.w, a.s, Committer(c), e).value, faulty := a.faulty || !e.CallReturns?))
  {
    var ph, job := a.s.Phase(Committer(c)), JobOf(c.plan[|a.outcomes|].image);
    var s' := SP.Step(c.w, a.s, Committer(c), e).value;
    CallMoves(c.w, a.s, Committer(c), e);
    CommitCallEnds(c.w, a.s.entries, ph);
    StepIsLocal(c.w, a.s, Committer(c), e);
    assert SP.PhaseOK(c.w, a.s.entries, ph) && SP.PhaseOK(c.w, s'.entries, s'.Phase(Committer(c)));
    if e.CallReturns? {
      if Good(c, start, a.failed, |a.outcomes|) {
        CallStaysOnTrack(c.w, a.s.entries, job, ph);
      }
      if s'.Phase(Committer(c)) == SP.Committed(job, SP.Err(SP.Conflict)) {
        ConflictHoldsOther(c.w, a.s.entries, ph);
      }
    }
  }

  lemma CommitKeeps(c: Params, start: SP.Entries, a: Snap, e: SP.Event)
    requires ParamsOK(c) && PInv(c, start, a) && CommitStep(c, a, e).Some?
    ensures PInv(c, start, CommitStep(c, a, e).value)
  {
    var s' := SP.Step(c.w, a.s, Committer(c), e).value;
    StepIsLocal(c.w, a.s, Committer(c), e);
    CommitCallFits(c, start, a, e);
    CommitMoves(c, start, a, a.(s := s', faulty := a.faulty || !e.CallReturns?));
  }

  lemma SkipKeeps(c: Params, start: SP.Entries, a: Snap)
    requires PInv(c, start, a) && Step(c, a, Skip).Some?
    ensures PInv(c, start, Step(c, a, Skip).value)
  {
    var b := Step(c, a, Skip).value;
    forall k: nat | k < |b.outcomes| ensures OutcomeOK(c, start, b, k) {
      if k < |a.outcomes| {
        LaterOutcome(c, start, a, b, k);
      }
    }
  }

  // ---------------------------------------------------------------------------------------------

  lemma StepKeepsPInv(c: Params, start: SP.Entries, a: Snap, act: Action)
    requires ParamsOK(c) && PInv(c, start, a) && Step(c, a, act).Some?
    ensures PInv(c, start, Step(c, a, act).value)
  {
    match act
    case Foreign(p, e) => ForeignKeeps(c, start, a, p, e);
    case Cancel => CancelKeeps(c, start, a);
    case Acquire => AcquireKeeps(c, start, a);
    case Open(i, works) => OpenKeeps(c, start, a, i, works);
    case Store(i, e) => StoreKeeps(c, start, a, i, e);
    case BeginCommit => BeginKeeps(c, start, a);
    case CommitCall(e) => CommitKeeps(c, start, a, e);
    case Skip => SkipKeeps(c, start, a);
  }

  lemma {:induction false} RunKeepsPInv(c: Params, start: SP.Entries, a: Snap, log: seq<Action>)
    requires ParamsOK(c) && PInv(c, start, a) && Exec(c, a, log).Some?
    ensures PInv(c, start, Exec(c, a, log).value)
    decreases |log|
  {
    if log != [] {
      StepKeepsPInv(c, start, a, log[0]);
      RunKeepsPInv(c, start, Step(c, a, log[0]).value, log[1..]);
    }
  }
}
