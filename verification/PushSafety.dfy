/** Whole runs of a push: the bound on uploads, their order, and what the error says about each entry. */
module PushSafety {
  import opened Content
  import opened ImageModel
  import SP = StoreProtocol
  import opened StoreModel = Store
  import opened Errors
  import opened Planning
  import opened PushProtocol
  import opened PushInvariant
  import BareManifests

  /** A push of a whole plan, from a sound store none of whose processes are its own yet. */
  ghost predicate Begins(c: Params, s: State) {
    ParamsOK(c) && SP.Inv(c.w, s) && forall p: Pid | p >= c.base :: s.Phase(p).Over()
  }

  ghost predicate Reaches(c: Params, s: State, log: seq<Action>, a: Snap) {
    Begins(c, s) && Exec(c, Start(c, s), log) == Some(a)
  }

  lemma ReachesPInv(c: Params, s: State, log: seq<Action>, a: Snap)
    requires Reaches(c, s, log, a)
    ensures PInv(c, s.entries, a)
  {
    StartOK(c, s);
    RunKeepsPInv(c, s.entries, Start(c, s), log);
  }

  lemma {:induction false} ExecNext(c: Params, a: Snap, log: seq<Action>, act: Action)
    requires Exec(c, a, log).Some? && Step(c, Exec(c, a, log).value, act).Some?
    ensures Exec(c, a, log + [act]) == Step(c, Exec(c, a, log).value, act)
    decreases |log|
  {
    if log == [] {
      assert log + [act] == [act] && [act][1..] == [];
    } else {
      assert (log + [act])[1..] == log[1..] + [act];
      ExecNext(c, Step(c, a, log[0]).value, log[1..], act);
    }
  }

  // ---------------------------------------------------------------------------------------------
  // The semaphore

  /** At every point of every run at most `capacity` uploads are in flight, one per token held. */
  lemma NeverMoreThanCapacity(c: Params, s: State, log: seq<Action>, a: Snap)
    requires Reaches(c, s, log, a)
    ensures Total(InFlight, a.status) == a.held <= c.capacity
  {
    ReachesPInv(c, s, log, a);
  }

  lemma {:induction false} PrefixRuns(c: Params, a: Snap, log: seq<Action>, k: nat)
    requires Exec(c, a, log).Some? && k <= |log|
    ensures Exec(c, a, log[..k]).Some?
    decreases |log|
  {
    if k > 0 {
      PrefixRuns(c, Step(c, a, log[0]).value, log[1..], k - 1);
      assert log[..k][1..] == log[1..][..k - 1];
    }
  }

  /** After each action of the log, tokens held and uploads in flight are the same number, within the capacity. */
  ghost predicate Bounded(c: Params, s: State, log: seq<Action>) {
    forall k | 0 <= k <= |log| ::
      && Exec(c, Start(c, s), log[..k]).Some?
      && var b := Exec(c, Start(c, s), log[..k]).value; Total(InFlight, b.status) == b.held <= c.capacity
  }

  lemma RunsAreBounded(c: Params, s: State, log: seq<Action>, a: Snap)
    requires Reaches(c, s, log, a)
    ensures Bounded(c, s, log)
  {
    forall k | 0 <= k <= |log|
      ensures Exec(c, Start(c, s), log[..k]).Some?
      ensures var b := Exec(c, Start(c, s), log[..k]).value; Total(InFlight, b.status) == b.held <= c.capacity
    {
      PrefixRuns(c, Start(c, s), log, k);
      NeverMoreThanCapacity(c, s, log[..k], Exec(c, Start(c, s), log[..k]).value);
    }
  }

  /** The uploads a run starts, in the order it starts them. */
  function Starts(c: Params, a: Snap, log: seq<Action>): seq<nat>
    decreases |log|
  {
    if log == [] then []
    else
      match Step(c, a, log[0])
      case None => []
      case Some(b) => (if log[0].Acquire? then [NextQueued(a.status)] else []) + Starts(c, b, log[1..])
  }

  lemma NextQueuedIs(status: seq<Status>, i: nat)
    requires i <= |status| && (i < |status| ==> status[i].Queued?) && forall k | 0 <= k < i :: !status[k].Queued?
    ensures NextQueued(status) == i
  {
  }

  ghost predicate QueuedLast(status: seq<Status>) {
    forall i, j | 0 <= i < j < |status| && status[i].Queued? :: status[j].Queued?
  }

  ghost predicate SameQueue(status: seq<Status>, later: seq<Status>) {
    |later| == |status| && forall k | 0 <= k < |status| :: later[k].Queued? <==> status[k].Queued?
  }

  lemma OpenLeavesQueue(c: Params, a: Snap, i: nat, works: bool)
    requires OpenStep(c, a, i, works).Some?
    ensures SameQueue(a.status, OpenStep(c, a, i, works).value.status)
  {
  }

  lemma StoreLeavesQueue(c: Params, a: Snap, i: nat, e: SP.Event)
    requires StoreStep(c, a, i, e).Some?
    ensures SameQueue(a.status, StoreStep(c, a, i, e).value.status)
  {
  }

  lemma OthersLeaveQueue(c: Params, a: Snap, act: Action)
    requires Step(c, a, act).Some? && !act.Acquire? && !act.Open? && !act.Store?
    ensures Step(c, a, act).value.status == a.status
  {
  }

  /** Acquire takes the front of the queue; no other action starts an upload or puts one back. */
  lemma StepQueues(c: Params, a: Snap, act: Action)
    requires QueuedLast(a.status) && Step(c, a, act).Some?
    ensures var b := Step(c, a, act).value;
      && QueuedLast(b.status) && |b.status| == |a.status|
      && NextQueued(b.status) == NextQueued(a.status) + (if act.Acquire? then 1 else 0)
  {
    var i, b := NextQueued(a.status), Step(c, a, act).value;
    if act.Acquire? {
      assert b.status == a.status[i := Reading];
      NextQueuedIs(b.status, i + 1);
    } else {
      if act.Open? {
        OpenLeavesQueue(c, a, act.i, act.works);
      } else if act.Store? {
        StoreLeavesQueue(c, a, act.i, act.e);
      } else {
        OthersLeaveQueue(c, a, act);
      }
      assert SameQueue(a.status, b.status);
      NextQueuedIs(b.status, i);
    }
  }

  lemma {:induction false} StartsAreInOrder(c: Params, a: Snap, log: seq<Action>)
    requires QueuedLast(a.status) && Exec(c, a, log).Some?
    ensures var starts := Starts(c, a, log);
      && |starts| == NextQueued(Exec(c, a, log).value.status) - NextQueued(a.status)
      && forall k | 0 <= k < |starts| :: starts[k] == NextQueued(a.status) + k
    decreases |log|
  {
    if log != [] {
      StepQueues(c, a, log[0]);
      StartsAreInOrder(c, Step(c, a, log[0]).value, log[1..]);
    }
  }

  /** A complete run starts each upload exactly once, in order. */
  lemma EachUploadStartsOnce(c: Params, s: State, log: seq<Action>, a: Snap)
    requires Reaches(c, s, log, a) && Complete(c, a)
    ensures var starts := Starts(c, Start(c, s), log);
      |starts| == |c.uploads| && forall k | 0 <= k < |starts| :: starts[k] == k
  {
    NextQueuedIs(Start(c, s).status, 0);
    NextQueuedIs(a.status, |a.status|);
    StartsAreInOrder(c, Start(c, s), log);
  }

  // ---------------------------------------------------------------------------------------------
  // What the error says

  ghost predicate Names(x: Err, e: Entry) {
    x.EntryFailure? && (x.ref, x.platform) == KeyOf(e)
  }

  ghost predicate NamesOne(x: Err, plan: seq<Entry>) {
    exists i :: 0 <= i < |plan| && Names(x, plan[i])
  }

  ghost predicate Named(leaves: seq<Err>, e: Entry) {
    exists k :: 0 <= k < |leaves| && Names(leaves[k], e)
  }

  /** An entry has a failure that names it, or its leaf holds its manifest. */
  ghost predicate Settled(w: World, es: SP.Entries, leaves: seq<Err>, e: Entry) {
    Named(leaves, e) || SP.Holds(w, es, SP.LeafOf(e.image.ref, e.image.platform), e.image.manifest.digest)
  }

  lemma {:induction false} CommitErrIn(plan: seq<Entry>, outcomes: seq<Outcome>, k: nat)
    requires k < |outcomes| <= |plan| && CommitErr(plan[k], outcomes[k]).Some?
    ensures CommitErr(plan[k], outcomes[k]).value in CommitErrs(plan, outcomes)
    decreases |outcomes|
  {
    var n := |outcomes| - 1;
    if k < n {
      CommitErrIn(plan, outcomes[..n], k);
    }
  }

  lemma {:induction false} CommitErrFrom(plan: seq<Entry>, outcomes: seq<Outcome>, x: Err) returns (k: nat)
    requires |outcomes| <= |plan| && x in CommitErrs(plan, outcomes)
    ensures k < |outcomes| && CommitErr(plan[k], outcomes[k]) == Some(x)
    decreases |outcomes|
  {
    var n := |outcomes| - 1;
    if CommitErr(plan[n], outcomes[n]) == Some(x) {
      k := n;
    } else {
      k := CommitErrFrom(plan, outcomes[..n], x);
    }
  }

  lemma NamedByMember(leaves: seq<Err>, x: Err, e: Entry)
    requires x in leaves && Names(x, e)
    ensures Named(leaves, e)
  {
    var k :| 0 <= k < |leaves| && leaves[k] == x;
    assert Names(leaves[k], e);
  }

  /** Every entry of a complete push has a failure that names it or a leaf holding its manifest. */
  lemma EveryEntrySettles(c: Params, s: State, log: seq<Action>, a: Snap, errs: seq<Err>)
    requires Reaches(c, s, log, a) && Complete(c, a) && ErrorsOf(c, a, errs)
    ensures forall k | 0 <= k < |c.plan| :: Settled(c.w, a.s.entries, errs, c.plan[k])
  {
    ReachesPInv(c, s, log, a);
    forall k: nat | k < |c.plan| ensures Settled(c.w, a.s.entries, errs, c.plan[k]) {
      assert OutcomeOK(c, s.entries, a, k);
      if CommitErr(c.plan[k], a.outcomes[k]).Some? {
        var x := CommitErr(c.plan[k], a.outcomes[k]).value;
        CommitErrIn(c.plan, a.outcomes, k);
        assert x in errs && Names(x, c.plan[k]);
        NamedByMember(errs, x, c.plan[k]);
      }
    }
  }

  /** Where a leaf of the error comes from: a failed upload of an entry's missing blob, or an entry's commit. */
  ghost predicate FromUpload(c: Params, a: Snap, x: Err, i: int) {
    && i in a.failed && 0 <= i < |c.uploads| && c.uploads[i].entry < |c.plan|
    && c.uploads[i].desc in c.plan[c.uploads[i].entry].missing && x == UploadErr(c, i)
  }

  ghost predicate FromCommit(c: Params, a: Snap, x: Err, k: int) {
    0 <= k < |a.outcomes| <= |c.plan| && CommitErr(c.plan[k], a.outcomes[k]) == Some(x)
  }

  lemma WhereErrorsComeFrom(c: Params, a: Snap, errs: seq<Err>, x: Err) returns (upload: bool, i: nat)
    requires c.uploads == Firsts(AllMissing(c.plan)) && ErrorsOf(c, a, errs) && x in errs
    ensures if upload then FromUpload(c, a, x, i) else FromCommit(c, a, x, i)
  {
    UploadsAreTheMissing(c.plan, c.uploads);
    upload := x in UploadErrs(c, a.failed);
    if upload {
      var k :| 0 <= k < |a.failed| && UploadErrs(c, a.failed)[k] == x;
      i := a.failed[k];
    } else {
      i := CommitErrFrom(c.plan, a.outcomes, x);
    }
  }

  /** Every error names an entry of the plan. */
  lemma EveryErrorNamesAnEntry(c: Params, a: Snap, errs: seq<Err>)
    requires c.uploads == Firsts(AllMissing(c.plan)) && ErrorsOf(c, a, errs)
    ensures forall x | x in errs :: NamesOne(x, c.plan)
  {
    forall x | x in errs ensures NamesOne(x, c.plan) {
      var upload, i := WhereErrorsComeFrom(c, a, errs, x);
      var k := if upload then c.uploads[i].entry else i;
      assert Names(x, c.plan[k]);
    }
  }

  // ---------------------------------------------------------------------------------------------
  // Entries in order

  /** No failure says that a blob the entry lacked failed to upload. */
  ghost predicate NoUploadFailed(errs: seq<Err>, e: Entry) {
    forall x, d | x in errs && x.EntryFailure? && d in e.missing :: x.cause != Plain(UploadFailed(d.digest))
  }

  /** A failure that is not the entry's own: cancellation, a conflict, the backend. */
  predicate Transient(x: Err) {
    && x.EntryFailure?
    && x.cause in {Plain(Cancelled), Plain(CommitFailed(SP.Conflict)), Plain(CommitFailed(SP.BackendFailure))}
  }

  /** All entries of one reference and platform are in order, and none of the blobs they lacked failed to upload. */
  ghost predicate Fit(c: Params, start: SP.Entries, errs: seq<Err>, q: Request) {
    forall k | 0 <= k < |c.plan| && KeyOf(c.plan[k]) == q ::
      Ready(c.w, start, c.plan[k]) && NoUploadFailed(errs, c.plan[k])
  }

  ghost predicate OnlyTransient(errs: seq<Err>, q: Request) {
    forall x | x in errs && x.EntryFailure? && (x.ref, x.platform) == q :: Transient(x)
  }

  lemma NoFailureIsNoneFailed(c: Params, a: Snap, errs: seq<Err>, e: Entry)
    requires ErrorsOf(c, a, errs) && NoUploadFailed(errs, e)
    ensures NoneFailed(c, a.failed, e)
  {
    forall i, d | i in a.failed && i < |c.uploads| && d in e.missing
      ensures c.uploads[i].desc.digest != d.digest
    {
      var f :| 0 <= f < |a.failed| && a.failed[f] == i;
      assert UploadErrs(c, a.failed)[f] in errs;
    }
  }

  lemma UploadBlamesItsEntry(c: Params, a: Snap, errs: seq<Err>, x: Err, i: nat)
    requires FromUpload(c, a, x, i) && x in errs
    ensures KeyOf(c.plan[c.uploads[i].entry]) == (x.ref, x.platform)
    ensures !NoUploadFailed(errs, c.plan[c.uploads[i].entry])
  {
  }

  /** Every error that names a request whose entries are fit is a cancellation, a conflict or the backend's. */
  lemma EntriesInOrderDoNotFail(c: Params, s: State, log: seq<Action>, a: Snap, errs: seq<Err>, q: Request)
    requires Reaches(c, s, log, a) && ErrorsOf(c, a, errs) && CollisionFree(c.w.hash) && Fit(c, s.entries, errs, q)
    ensures OnlyTransient(errs, q)
  {
    ReachesPInv(c, s, log, a);
    forall x | x in errs && x.EntryFailure? && (x.ref, x.platform) == q ensures Transient(x) {
      var upload, i := WhereErrorsComeFrom(c, a, errs, x);
      if upload {
        UploadBlamesItsEntry(c, a, errs, x, i);
      } else {
        NoFailureIsNoneFailed(c, a, errs, c.plan[i]);
        assert OutcomeOK(c, s.entries, a, i);
      }
    }
  }

  // ---------------------------------------------------------------------------------------------
  // Closure of what was uploaded

  /** The entry's manifest is stored with its config and layers, whether its leaf was committed or not. */
  ghost predicate EntryClosed(w: World, es: SP.Entries, e: Entry) {
    HasManifest(w, e.image) ==>
      && SP.ReadManifest(w, es, e.image.manifest.digest).Some?
      && BareManifests.PartsIn(es, SP.ReadManifest(w, es, e.image.manifest.digest).value)
  }

  lemma StoredIsClosed(w: World, es: SP.Entries, e: Entry)
    requires CollisionFree(w.hash) && SP.BlobsOK(w, es)
    requires HasManifest(w, e.image) && AllStored(es, ImageBlobs(w, e.image).value)
    ensures EntryClosed(w, es, e)
  {
    var img := e.image;
    var m := w.manifest(img.dir[img.manifest.digest]).value;
    var descs := ImageBlobs(w, img).value;
    assert descs[|m.layers|] == m.config && descs[|m.layers| + 1] == img.manifest;
    assert es[SP.BlobEntry(img.manifest.digest)] == img.dir[img.manifest.digest];
    forall i | 0 <= i < |m.layers| ensures SP.BlobEntry(m.layers[i].digest) in es {
      assert descs[i] == m.layers[i];
    }
  }

  /**
   * Manifests go up in parallel with their layers, so a push may store one before its parts. Once the
   * uploads have ended, the manifest of each entry none of whose blobs failed has all its parts.
   */
  lemma UploadedIsClosed(c: Params, s: State, log: seq<Action>, a: Snap, errs: seq<Err>, k: nat)
    requires Reaches(c, s, log, a) && Complete(c, a) && ErrorsOf(c, a, errs) && CollisionFree(c.w.hash)
    requires k < |c.plan| && Covered(c.w, s.entries, c.plan[k]) && NoUploadFailed(errs, c.plan[k])
    ensures EntryClosed(c.w, a.s.entries, c.plan[k])
  {
    ReachesPInv(c, s, log, a);
    NoFailureIsNoneFailed(c, a, errs, c.plan[k]);
    if HasManifest(c.w, c.plan[k].image) {
      ImageIsStored(c, s.entries, a, k);
      StoredIsClosed(c.w, a.s.entries, c.plan[k]);
    }
  }

  // ---------------------------------------------------------------------------------------------
  // Calm runs

  /** Only unfit blobs fail to upload when no call was made to fail. */
  lemma OnlyUnfitUploadsFail(c: Params, s: State, log: seq<Action>, a: Snap, i: nat)
    requires Reaches(c, s, log, a) && Complete(c, a) && !a.faulty && i < |c.uploads|
    ensures i in a.failed ==> !Uploadable(c, i)
    ensures Uploadable(c, i) ==> SP.BlobEntry(c.uploads[i].desc.digest) in a.s.entries
  {
    ReachesPInv(c, s, log, a);
  }

  /**
   * A push that is neither cancelled nor hit by a failing call, of images in order whose missing blobs
   * the source has: its only errors are conflicts, and a conflict means that the leaf holds another
   * manifest. Every other leaf holds its entry's manifest.
   */
  lemma CalmPushCommits(c: Params, s: State, log: seq<Action>, a: Snap, errs: seq<Err>)
    requires Reaches(c, s, log, a) && Complete(c, a) && ErrorsOf(c, a, errs)
    requires !a.faulty && !a.cancelled && CollisionFree(c.w.hash)
    requires (forall k | 0 <= k < |c.plan| :: Ready(c.w, s.entries, c.plan[k]))
      && forall i: nat | i < |c.uploads| :: Uploadable(c, i)
    ensures forall x | x in errs :: x.EntryFailure? && x.cause == Plain(CommitFailed(SP.Conflict))
    ensures forall k: nat | k < |c.plan| :: CalmOutcome(c, a, k)
  {
    NothingFailed(c, s, log, a);
    forall k: nat | k < |c.plan| ensures CalmOutcome(c, a, k) {
      CommitsOrConflicts(c, s, log, a, k);
    }
    forall x | x in errs ensures x.EntryFailure? && x.cause == Plain(CommitFailed(SP.Conflict)) {
      var upload, i := WhereErrorsComeFrom(c, a, errs, x);
      assert CalmOutcome(c, a, i);
    }
  }

  lemma NothingFailed(c: Params, s: State, log: seq<Action>, a: Snap)
    requires Reaches(c, s, log, a) && Complete(c, a) && !a.faulty
    requires forall i: nat | i < |c.uploads| :: Uploadable(c, i)
    ensures forall i: nat :: i !in a.failed
  {
    ReachesPInv(c, s, log, a);
  }

  /** Nil with the manifest in the leaf, or a conflict with another one there. */
  ghost predicate CalmOutcome(c: Params, a: Snap, k: nat)
    requires k < |c.plan| == |a.outcomes|
  {
    var job := JobOf(c.plan[k].image);
    || (a.outcomes[k] == Done(SP.Ok) && SP.Holds(c.w, a.s.entries, job.Leaf(), job.manifest.digest))
    || (a.outcomes[k] == Done(SP.Err(SP.Conflict)) && HoldsOther(c.w, a.s.entries, job.Leaf(), job.manifest.digest))
  }

  lemma CommitsOrConflicts(c: Params, s: State, log: seq<Action>, a: Snap, k: nat)
    requires Reaches(c, s, log, a) && Complete(c, a) && !a.faulty && !a.cancelled && forall i: nat :: i !in a.failed
    requires k < |c.plan| && CollisionFree(c.w.hash) && Ready(c.w, s.entries, c.plan[k])
    ensures CalmOutcome(c, a, k)
  {
    ReachesPInv(c, s, log, a);
    assert OutcomeOK(c, s.entries, a, k);
    assert Good(c, s.entries, a.failed, k);
  }

  // ---------------------------------------------------------------------------------------------
  // Cancellation

  /** From `a` to `b` no commit began: the one under way may have ended, and every later entry was passed over. */
  ghost predicate OnlySkips(a: Snap, b: Snap) {
    && b.cancelled && a.outcomes <= b.outcomes && (b.busy ==> a.busy && b.outcomes == a.outcomes)
    && forall k | |a.outcomes| + (if a.busy then 1 else 0) <= k < |b.outcomes| :: b.outcomes[k].Skipped?
  }

  lemma CancelledStep(c: Params, a: Snap, act: Action)
    requires a.cancelled && Step(c, a, act).Some?
    ensures OnlySkips(a, Step(c, a, act).value)
  {
  }

  /** Once the context is done no further commit begins. */
  lemma {:induction false} CancelledSkips(c: Params, a: Snap, log: seq<Action>)
    requires a.cancelled && Exec(c, a, log).Some?
    ensures OnlySkips(a, Exec(c, a, log).value)
    decreases |log|
  {
    if log != [] {
      CancelledStep(c, a, log[0]);
      CancelledSkips(c, Step(c, a, log[0]).value, log[1..]);
    }
  }

  lemma SkipStep(c: Params, a: Snap, act: Action)
    requires (Skipped in a.outcomes ==> a.cancelled) && Step(c, a, act).Some?
    ensures var b := Step(c, a, act).value; Skipped in b.outcomes ==> b.cancelled
  {
  }

  /** And an entry is passed over only when it is. */
  lemma {:induction false} SkippedIsCancelled(c: Params, a: Snap, log: seq<Action>)
    requires (Skipped in a.outcomes ==> a.cancelled) && Exec(c, a, log).Some?
    ensures var b := Exec(c, a, log).value; Skipped in b.outcomes ==> b.cancelled
    decreases |log|
  {
    if log != [] {
      SkipStep(c, a, log[0]);
      SkippedIsCancelled(c, Step(c, a, log[0]).value, log[1..]);
    }
  }
}
