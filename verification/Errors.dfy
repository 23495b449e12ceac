/** The error values transfers report: entry failures, wrapped errors and joins. */
module Errors {
  import opened Content
  import opened ImageModel
  import opened StoreProtocol

  datatype Reason =
    | BadReference
    | Unresolved
    | NotDiffed
    | UploadFailed(blob: Digest)
    | Cancelled
    | CommitFailed(error: Error)

  datatype Err =
    | Plain(reason: Reason)
    | Wrapped(inner: Err)                                            // Unwrap() error
    | EntryFailure(ref: Reference, platform: Platform, cause: Err)   // *transfer.EntryError
    | Joined(errs: seq<Err>)                                         // Unwrap() []error

  /** errors.Join: nil for no error. */
  function Join(errs: seq<Err>): Option<Err> {
    if errs == [] then None else Some(Joined(errs))
  }

  function Opt<T>(x: Option<T>): seq<T> {
    match x case None => [] case Some(v) => [v]
  }

  /** The leaves of the join tree. A wrapped join is a leaf. */
  function Flatten(e: Err): seq<Err>
    decreases e
  {
    match e
    case Joined(es) => FlattenAll(es)
    case _ => [e]
  }

  function FlattenAll(es: seq<Err>): seq<Err>
    decreases es
  {
    if es == [] then [] else Flatten(es[0]) + FlattenAll(es[1..])
  }

  function Leaves(err: Option<Err>): seq<Err> {
    match err case None => [] case Some(e) => Flatten(e)
  }

  /** errors.AsType for an entry failure: depth first, an entry failure is not looked into. */
  function AsEntry(e: Err): (r: Option<Err>)
    ensures r.Some? ==> r.value.EntryFailure?
    decreases e
  {
    match e
    case Plain(_) => None
    case Wrapped(inner) => AsEntry(inner)
    case EntryFailure(_, _, _) => Some(e)
    case Joined(es) => FirstEntry(es)
  }

  function FirstEntry(es: seq<Err>): (r: Option<Err>)
    ensures r.Some? ==> r.value.EntryFailure?
    decreases es
  {
    if es == [] then None
    else
      match AsEntry(es[0])
      case Some(x) => Some(x)
      case None => FirstEntry(es[1..])
  }

  // ---------------------------------------------------------------------------------------------
  // What the two searches find

  /** `x` is e or among the errors it joins, however deep. */
  ghost predicate Joins(e: Err, x: Err)
    decreases e
  {
    e == x || (e.Joined? && exists i :: 0 <= i < |e.errs| && Joins(e.errs[i], x))
  }

  /** `x` is e or inside it, wrapped or joined, however deep. */
  ghost predicate Inside(e: Err, x: Err)
    decreases e
  {
    || e == x
    || (e.Wrapped? && Inside(e.inner, x))
    || (e.Joined? && exists i :: 0 <= i < |e.errs| && Inside(e.errs[i], x))
  }

  /** The leaves of an error are what it joins, the joins themselves left out. */
  lemma {:induction false} LeavesAreJoined(e: Err, x: Err)
    ensures x in Flatten(e) <==> !x.Joined? && Joins(e, x)
    decreases e, 0
  {
    if e.Joined? {
      AllJoined(e.errs, x);
    }
  }

  lemma {:induction false} AllJoined(es: seq<Err>, x: Err)
    ensures x in FlattenAll(es) <==> !x.Joined? && exists i :: 0 <= i < |es| && Joins(es[i], x)
    decreases es, 1
  {
    if es != [] {
      LeavesAreJoined(es[0], x);
      AllJoined(es[1..], x);
      if !x.Joined? && exists i :: 0 <= i < |es| && Joins(es[i], x) {
        var i :| 0 <= i < |es| && Joins(es[i], x);
        assert i > 0 ==> Joins(es[1..][i - 1], x);
      }
    }
  }

  /** The search finds an entry failure exactly when one is inside, and that is one of those inside. */
  lemma {:induction false} AsEntryFinds(e: Err)
    ensures AsEntry(e).Some? ==> Inside(e, AsEntry(e).value)
    ensures AsEntry(e).None? ==> forall x: Err | x.EntryFailure? :: !Inside(e, x)
    decreases e, 0
  {
    match e
    case Wrapped(inner) => AsEntryFinds(inner);
    case Joined(es) => FirstEntryFinds(es);
    case _ =>
  }

  lemma {:induction false} FirstEntryFinds(es: seq<Err>)
    ensures FirstEntry(es).Some? ==> exists i ::
      0 <= i < |es| && AsEntry(es[i]) == FirstEntry(es) && Inside(es[i], FirstEntry(es).value)
      && forall j | 0 <= j < i :: AsEntry(es[j]).None?
    ensures FirstEntry(es).None? ==> forall i, x: Err | 0 <= i < |es| && x.EntryFailure? :: !Inside(es[i], x)
    decreases es, 1
  {
    if es != [] {
      AsEntryFinds(es[0]);
      FirstEntryFinds(es[1..]);
      if AsEntry(es[0]).None? && FirstEntry(es[1..]).Some? {
        var i :| 0 <= i < |es[1..]| && AsEntry(es[1..][i]) == FirstEntry(es) && Inside(es[1..][i], FirstEntry(es).value)
          && forall j | 0 <= j < i :: AsEntry(es[1..][j]).None?;
        assert AsEntry(es[i + 1]) == FirstEntry(es) && forall j | 0 <= j < i + 1 :: AsEntry(es[j]).None?;
      }
    }
  }

  // ---------------------------------------------------------------------------------------------

  ghost predicate NoJoin(es: seq<Err>) {
    forall i | 0 <= i < |es| :: !es[i].Joined?
  }

  lemma {:induction false} FlattenHasNoJoin(e: Err)
    ensures NoJoin(Flatten(e))
    decreases e
  {
    if e.Joined? {
      FlattenAllHasNoJoin(e.errs);
    }
  }

  lemma {:induction false} FlattenAllHasNoJoin(es: seq<Err>)
    ensures NoJoin(FlattenAll(es))
    decreases es
  {
    if es != [] {
      FlattenHasNoJoin(es[0]);
      FlattenAllHasNoJoin(es[1..]);
    }
  }

  lemma LeavesHaveNoJoin(err: Option<Err>)
    ensures NoJoin(Leaves(err))
  {
    if err.Some? {
      FlattenHasNoJoin(err.value);
    }
  }

  lemma {:induction false} FlattenAllConcat(a: seq<Err>, b: seq<Err>)
    ensures FlattenAll(a + b) == FlattenAll(a) + FlattenAll(b)
    decreases |a|
  {
    if a == [] {
      assert a + b == b;
    } else {
      assert (a + b)[1..] == a[1..] + b;
      FlattenAllConcat(a[1..], b);
    }
  }

  lemma {:induction false} FlattenLeaves(es: seq<Err>)
    requires NoJoin(es)
    ensures FlattenAll(es) == es
    decreases |es|
  {
    if es != [] {
      FlattenLeaves(es[1..]);
    }
  }

  lemma FlattenOpt(err: Option<Err>)
    ensures FlattenAll(Opt(err)) == Leaves(err)
  {
    if err.Some? {
      assert [err.value][1..] == [];
    }
  }

  /** Joining appends the leaves. */
  lemma JoinLeaves(err: Option<Err>, e: Err)
    requires !e.Joined?
    ensures Leaves(Join(Opt(err) + [e])) == Leaves(err) + [e]
  {
    FlattenAllConcat(Opt(err), [e]);
    assert FlattenAll([e]) == Flatten(e) + FlattenAll([]) == [e];
    FlattenOpt(err);
  }
}
