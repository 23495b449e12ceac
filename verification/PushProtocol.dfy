/**
 * A push as a machine over the store machine: uploads by parallel workers under a counting semaphore,
 * then one commit per entry, while any number of other processes use the same store.
 *
 * The push owns the process numbers from `base` on: one worker per upload, then the committer. One
 * action is one step of the main loop, of a worker, of the context, or of somebody else's process.
 */
module PushProtocol {
  import opened Content
  import opened ImageModel
  import SP = StoreProtocol
  import opened StoreModel = Store
  import opened Errors
  import opened Planning

  type Pid = SP.Pid
  type State = SP.State
  type Phase = SP.Phase

  datatype Params = Params(w: World, plan: seq<Entry>, uploads: seq<Upload>, capacity: nat, base: Pid)

  datatype Status = Queued | Reading | Probing | Creating | Ended

  /** How an entry ended: passed over because the context was done, or its commit's answer. */
  datatype Outcome = Skipped | Done(result: SP.Result)

  /**
   * `held` counts the tokens in the semaphore; `busy` says the committer is inside Commit; `faulty` that
   * some call of this push was made to fail.
   */
  datatype Snap = Snap(
    s: State, status: seq<Status>, held: nat, failed: seq<nat>,
    cancelled: bool, outcomes: seq<Outcome>, busy: bool, faulty: bool)

  datatype Action =
    | Foreign(p: Pid, e: SP.Event)
    | Cancel
    | Acquire                          // the loop takes a token and starts the next upload
    | Open(i: nat, works: bool)        // worker i opens the blob at the source and begins PutBlob
    | Store(i: nat, e: SP.Event)       // worker i's next backend call
    | BeginCommit
    | CommitCall(e: SP.Event)
    | Skip

  function Worker(c: Params, i: nat): Pid {
    c.base + i
  }

  function Committer(c: Params): Pid {
    c.base + |c.uploads|
  }

  // ---------------------------------------------------------------------------------------------
  // Uploads

  predicate Readable(c: Params, i: nat) {
    && i < |c.uploads| && c.uploads[i].entry < |c.plan|
    && c.uploads[i].desc.digest in c.plan[c.uploads[i].entry].image.dir
  }

  function Body(c: Params, i: nat): Bytes
    requires Readable(c, i)
  {
    c.plan[c.uploads[i].entry].image.dir[c.uploads[i].desc.digest]
  }

  /** The source has the blob, and its bytes are what the descriptor says. */
  predicate Uploadable(c: Params, i: nat) {
    && Readable(c, i) && ValidDigest(c.uploads[i].desc.digest)
    && Verifies(c.w.hash, Body(c, i), c.uploads[i].desc.size, Some(c.uploads[i].desc.digest))
  }

  /** The first upload not started. */
  function NextQueued(status: seq<Status>): (i: nat)
    ensures i <= |status| && (i < |status| ==> status[i].Queued?)
    ensures forall k | 0 <= k < i :: !status[k].Queued?
  {
    if status == [] || status[0].Queued? then 0 else 1 + NextQueued(status[1..])
  }

  /** Worker i is done: it gives its token back, and its failure is noted. */
  function Finish(a: Snap, i: nat, ok: bool): Snap
    requires i < |a.status|
  {
    a.(status := a.status[i := Ended], held := if a.held > 0 then a.held - 1 else 0,
      failed := if ok then a.failed else a.failed + [i])
  }

  /** PutBlob refuses the digest, or goes on to its probe. */
  function AfterOpen(c: Params, a: Snap, i: nat): Snap
    requires i < |a.status|
  {
    if a.s.Phase(Worker(c, i)).AtProbe? then a.(status := a.status[i := Probing]) else Finish(a, i, false)
  }

  function OpenStep(c: Params, a: Snap, i: nat, works: bool): Option<Snap> {
    if i >= |a.status| || !a.status[i].Reading? then None
    else if !works || !Readable(c, i) then Some(Finish(a.(faulty := a.faulty || !works), i, false))
    else
      match SP.Step(c.w, a.s, Worker(c, i), SP.BeginPut(c.uploads[i].desc, Body(c, i)))
      case None => None
      case Some(s') => Some(AfterOpen(c, a.(s := s'), i))
  }

  predicate IsCall(e: SP.Event) {
    e.CallReturns? || e.CallFails? || e.CallLies?
  }

  /** After a call of worker i: still inside PutBlob, or done. */
  function AfterStore(c: Params, a: Snap, i: nat): Snap
    requires i < |a.status|
  {
    var ph := a.s.Phase(Worker(c, i));
    if ph.AtCreate? then a.(status := a.status[i := Creating]) else Finish(a, i, ph.Put? && ph.stored.Ok?)
  }

  function StoreStep(c: Params, a: Snap, i: nat, e: SP.Event): Option<Snap> {
    if i >= |a.status| || !(a.status[i].Probing? || a.status[i].Creating?) || !IsCall(e) then None
    else
      match SP.Step(c.w, a.s, Worker(c, i), e)
      case None => None
      case Some(s') => Some(AfterStore(c, a.(s := s', faulty := a.faulty || !e.CallReturns?), i))
  }

  // ---------------------------------------------------------------------------------------------
  // Commits

  predicate AllEnded(status: seq<Status>) {
    forall i | 0 <= i < |status| :: status[i].Ended?
  }

  /** The committer between two commits. */
  predicate AtCommit(c: Params, a: Snap) {
    AllEnded(a.status) && !a.busy && |a.outcomes| < |c.plan|
  }

  /** After a step of the committer: still inside Commit, or the entry has its outcome. */
  function AfterCommit(c: Params, a: Snap): Snap {
    var ph := a.s.Phase(Committer(c));
    if ph.Committed? then a.(busy := false, outcomes := a.outcomes + [Done(ph.result)]) else a.(busy := true)
  }

  function BeginStep(c: Params, a: Snap): Option<Snap> {
    if !AtCommit(c, a) || a.cancelled then None
    else
      match SP.Step(c.w, a.s, Committer(c), SP.BeginCommit(JobOf(c.plan[|a.outcomes|].image)))
      case None => None
      case Some(s') => Some(AfterCommit(c, a.(s := s')))
  }

  function CommitStep(c: Params, a: Snap, e: SP.Event): Option<Snap> {
    if !a.busy || !IsCall(e) then None
    else
      match SP.Step(c.w, a.s, Committer(c), e)
      case None => None
      case Some(s') => Some(AfterCommit(c, a.(s := s', faulty := a.faulty || !e.CallReturns?)))
  }

  // ---------------------------------------------------------------------------------------------
  // Runs

  function Step(c: Params, a: Snap, act: Action): Option<Snap> {
    match act
    case Foreign(p, e) =>
      if p >= c.base then None
      else (match SP.Step(c.w, a.s, p, e) case None => None case Some(s') => Some(a.(s := s')))
    case Cancel => Some(a.(cancelled := true))
    case Acquire =>
      var i := NextQueued(a.status);
      if i == |a.status| || a.held >= c.capacity then None
      else Some(a.(status := a.status[i := Reading], held := a.held + 1))
    case Open(i, works) => OpenStep(c, a, i, works)
    case Store(i, e) => StoreStep(c, a, i, e)
    case BeginCommit => BeginStep(c, a)
    case CommitCall(e) => CommitStep(c, a, e)
    case Skip => if AtCommit(c, a) && a.cancelled then Some(a.(outcomes := a.outcomes + [Skipped])) else None
  }

  function Exec(c: Params, a: Snap, log: seq<Action>): Option<Snap>
    decreases |log|
  {
    if log == [] then Some(a)
    else
      match Step(c, a, log[0])
      case None => None
      case Some(b) => Exec(c, b, log[1..])
  }

  function Start(c: Params, s: State): Snap {
    Snap(s, seq(|c.uploads|, _ => Queued), 0, [], false, [], false, false)
  }

  predicate Complete(c: Params, a: Snap) {
    AllEnded(a.status) && |a.status| == |c.uploads| && !a.busy && |a.outcomes| == |c.plan|
  }

  // ---------------------------------------------------------------------------------------------
  // The error of a push

  /** The failure of an upload, reported against the first entry that needs the blob. */
  function UploadErr(c: Params, i: nat): Err
    requires i < |c.uploads| && c.uploads[i].entry < |c.plan|
  {
    var img := c.plan[c.uploads[i].entry].image;
    EntryFailure(img.ref, img.platform, Plain(UploadFailed(c.uploads[i].desc.digest)))
  }

  function UploadErrs(c: Params, failed: seq<nat>): (errs: seq<Err>)
    requires forall k | 0 <= k < |failed| :: failed[k] < |c.uploads| && c.uploads[failed[k]].entry < |c.plan|
    ensures |errs| == |failed| && forall k | 0 <= k < |failed| :: errs[k] == UploadErr(c, failed[k])
  {
    seq(|failed|, k requires 0 <= k < |failed| => UploadErr(c, failed[k]))
  }

  function CommitErr(e: Entry, o: Outcome): Option<Err> {
    match o
    case Skipped => Some(EntryFailure(e.image.ref, e.image.platform, Plain(Cancelled)))
    case Done(result) =>
      if result.Ok? then None
      else Some(EntryFailure(e.image.ref, e.image.platform, Plain(CommitFailed(result.error))))
  }

  function CommitErrs(plan: seq<Entry>, outcomes: seq<Outcome>): seq<Err>
    requires |outcomes| <= |plan|
  {
    if outcomes == [] then []
    else
      var k := |outcomes| - 1;
      CommitErrs(plan, outcomes[..k]) + Opt(CommitErr(plan[k], outcomes[k]))
  }

  /** What the joined error of a push that reached `a` is made of. */
  ghost predicate ErrorsOf(c: Params, a: Snap, errs: seq<Err>) {
    && |a.outcomes| <= |c.plan|
    && (forall k | 0 <= k < |a.failed| :: a.failed[k] < |c.uploads| && c.uploads[a.failed[k]].entry < |c.plan|)
    && errs == UploadErrs(c, a.failed) + CommitErrs(c.plan, a.outcomes)
  }
}
