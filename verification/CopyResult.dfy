/** The result rows of a copy: claiming plan entries, and attributing the leaves of an error to rows. */
module CopyResult {
  import opened Content
  import opened ImageModel
  import opened Errors
  import opened Planning

  /** manifest is None until a plan entry answers the request. */
  datatype Row = Row(
    ref: Reference, platform: Platform, manifest: Option<Digest>, missing: int, present: int, err: Option<Err>)

  // ---------------------------------------------------------------------------------------------
  // Which row an error goes to

  function Keys(rows: seq<Row>): (keys: seq<Request>)
    ensures |keys| == |rows| && forall i | 0 <= i < |rows| :: keys[i] == (rows[i].ref, rows[i].platform)
  {
    seq(|rows|, i requires 0 <= i < |rows| => (rows[i].ref, rows[i].platform))
  }

  /** The first row asked for by this reference and platform; |keys| when there is none. */
  function FirstRow(keys: seq<Request>, q: Request): (i: nat)
    ensures i <= |keys| && (i < |keys| ==> keys[i] == q) && forall k | 0 <= k < i :: keys[k] != q
  {
    if keys == [] || keys[0] == q then 0 else 1 + FirstRow(keys[1..], q)
  }

  /** The error record keeps of a leaf: the entry failure inside it, or the leaf. */
  function Kept(leaf: Err): Err {
    match AsEntry(leaf) case None => leaf case Some(x) => x
  }

  /** The row a leaf is attached to; |keys| when it is returned. */
  function Target(keys: seq<Request>, leaf: Err): (i: nat)
    ensures i <= |keys|
  {
    match AsEntry(leaf) case None => |keys| case Some(x) => FirstRow(keys, (x.ref, x.platform))
  }

  /** A leaf on its way: its target, and what is kept of it. */
  function Tag(keys: seq<Request>, leaf: Err): (nat, Err) {
    (Target(keys, leaf), Kept(leaf))
  }

  function Tags(keys: seq<Request>, leaves: seq<Err>): (tags: seq<(nat, Err)>)
    ensures |tags| == |leaves| && forall i | 0 <= i < |leaves| :: tags[i] == Tag(keys, leaves[i])
  {
    seq(|leaves|, i requires 0 <= i < |leaves| => Tag(keys, leaves[i]))
  }

  function One<T>(tag: (nat, T), i: nat): seq<T> {
    if tag.0 == i then [tag.1] else []
  }

  /** The tagged items for target i, in order. */
  function For<T>(tags: seq<(nat, T)>, i: nat): seq<T>
    decreases |tags|
  {
    if tags == [] then [] else For(tags[..|tags| - 1], i) + One(tags[|tags| - 1], i)
  }

  /** How often x is among the items for targets below n. */
  function Below<T(==)>(tags: seq<(nat, T)>, n: nat, x: T): nat
    decreases n
  {
    if n == 0 then 0 else Below(tags, n - 1, x) + multiset(For(tags, n - 1))[x]
  }

  /** What the leaves send to row i, in order; the leaves for |keys| are returned. */
  function Sent(keys: seq<Request>, leaves: seq<Err>, i: nat): seq<Err> {
    For(Tags(keys, leaves), i)
  }

  function AllKept(leaves: seq<Err>): (kept: seq<Err>)
    ensures |kept| == |leaves| && forall i | 0 <= i < |leaves| :: kept[i] == Kept(leaves[i])
  {
    seq(|leaves|, i requires 0 <= i < |leaves| => Kept(leaves[i]))
  }

  /** How often the leaves send x to a target below n. */
  function SentBelow(keys: seq<Request>, leaves: seq<Err>, n: nat, x: Err): nat {
    Below(Tags(keys, leaves), n, x)
  }

  lemma ForNext<T>(front: seq<(nat, T)>, tag: (nat, T), i: nat)
    ensures For(front + [tag], i) == For(front, i) + One(tag, i)
  {
    assert (front + [tag])[..|front|] == front;
  }

  lemma CountLast<T>(items: seq<T>, x: T)
    requires items != []
    ensures multiset(items)[x] == multiset(items[..|items| - 1])[x] + (if items[|items| - 1] == x then 1 else 0)
  {
    assert items == items[..|items| - 1] + [items[|items| - 1]];
  }

  lemma CountFor<T>(front: seq<(nat, T)>, tag: (nat, T), i: nat, x: T)
    ensures multiset(For(front + [tag], i))[x] ==
      multiset(For(front, i))[x] + (if tag.0 == i && tag.1 == x then 1 else 0)
  {
    ForNext(front, tag, i);
  }

  lemma BelowNext<T>(front: seq<(nat, T)>, tag: (nat, T), n: nat, x: T)
    ensures Below(front + [tag], n, x) == Below(front, n, x) + (if tag.0 < n && tag.1 == x then 1 else 0)
  {
    var longer := front + [tag];
    for m := 0 to n
      invariant Below(longer, m, x) == Below(front, m, x) + (if tag.0 < m && tag.1 == x then 1 else 0)
    {
      CountFor(front, tag, m, x);
    }
  }

  lemma {:induction false} BelowNothing<T>(n: nat, x: T)
    ensures Below([], n, x) == 0
    decreases n
  {
    if n > 0 {
      BelowNothing(n - 1, x);
    }
  }

  /** With every target below n, each item is in some target's list, as often as it was tagged. */
  lemma {:induction false} BelowConserves<T>(tags: seq<(nat, T)>, items: seq<T>, n: nat, x: T)
    requires |tags| == |items| && forall i | 0 <= i < |tags| :: tags[i].0 < n && tags[i].1 == items[i]
    ensures Below(tags, n, x) == multiset(items)[x]
    decreases |tags|
  {
    if tags == [] {
      BelowNothing(n, x);
    } else {
      var k := |tags| - 1;
      BelowConserves(tags[..k], items[..k], n, x);
      assert Below(tags, n, x) == Below(tags[..k], n, x) + (if items[k] == x then 1 else 0) by {
        assert tags == tags[..k] + [tags[k]];
        BelowNext(tags[..k], tags[k], n, x);
      }
      CountLast(items, x);
    }
  }

  lemma SentOne(keys: seq<Request>, front: seq<Err>, leaf: Err, i: nat)
    ensures Sent(keys, front + [leaf], i) == Sent(keys, front, i) + One(Tag(keys, leaf), i)
  {
    assert Tags(keys, front + [leaf]) == Tags(keys, front) + [Tag(keys, leaf)];
    ForNext(Tags(keys, front), Tag(keys, leaf), i);
  }

  /** No leaf is lost and none is sent twice. */
  lemma SentConserves(keys: seq<Request>, leaves: seq<Err>, x: Err)
    ensures SentBelow(keys, leaves, |keys| + 1, x) == multiset(AllKept(leaves))[x]
  {
    BelowConserves(Tags(keys, leaves), AllKept(leaves), |keys| + 1, x);
  }

  function Size(e: Err): nat
    decreases e
  {
    match e
    case Plain(_) => 1
    case Wrapped(inner) => 1 + Size(inner)
    case EntryFailure(_, _, cause) => 1 + Size(cause)
    case Joined(es) => 1 + Sizes(es)
  }

  function Sizes(es: seq<Err>): nat
    decreases es
  {
    if es == [] then 0 else Size(es[0]) + Sizes(es[1..])
  }

  lemma {:induction false} KeptIsNoLarger(e: Err)
    ensures AsEntry(e).Some? ==> Size(AsEntry(e).value) <= Size(e)
    ensures AsEntry(e).Some? && AsEntry(e).value != e ==> Size(AsEntry(e).value) < Size(e)
    decreases e
  {
    match e
    case Plain(_) =>
    case Wrapped(inner) => KeptIsNoLarger(inner);
    case EntryFailure(_, _, _) =>
    case Joined(es) => FirstIsSmaller(es);
  }

  lemma {:induction false} FirstIsSmaller(es: seq<Err>)
    ensures FirstEntry(es).Some? ==> Size(FirstEntry(es).value) <= Sizes(es)
    decreases es
  {
    if es != [] {
      KeptIsNoLarger(es[0]);
      FirstIsSmaller(es[1..]);
    }
  }

  /** A leaf that is no entry failure itself but has one inside. */
  predicate Buried(leaf: Err) {
    AsEntry(leaf).Some? && AsEntry(leaf).value != leaf
  }

  function SizeOf(m: seq<Err>): nat {
    if m == [] then 0 else SizeOf(m[..|m| - 1]) + Size(m[|m| - 1])
  }

  lemma {:induction false} KeptSizes(leaves: seq<Err>)
    ensures SizeOf(AllKept(leaves)) <= SizeOf(leaves)
    ensures (exists i :: 0 <= i < |leaves| && Buried(leaves[i])) ==> SizeOf(AllKept(leaves)) < SizeOf(leaves)
    decreases |leaves|
  {
    if leaves != [] {
      var k := |leaves| - 1;
      KeptSizes(leaves[..k]);
      KeptIsNoLarger(leaves[k]);
      assert AllKept(leaves)[..k] == AllKept(leaves[..k]);
      if i :| 0 <= i < |leaves| && Buried(leaves[i]) && i < k {
        assert leaves[..k][i] == leaves[i];
      }
    }
  }

  lemma {:induction false} SizeOfPermutation(a: seq<Err>, b: seq<Err>)
    requires multiset(a) == multiset(b)
    ensures SizeOf(a) == SizeOf(b)
    decreases |a|
  {
    if a == [] {
      assert |multiset(b)| == 0;
    } else {
      var a', x := a[..|a| - 1], a[|a| - 1];
      assert a == a' + [x];
      assert x in multiset(b);
      var j :| 0 <= j < |b| && b[j] == x;
      var b' := b[..j] + b[j + 1..];
      assert multiset(a') == multiset(b') by {
        assert b == b[..j] + [x] + b[j + 1..];
        assert multiset(a') == multiset(a) - multiset{x};
      }
      SizeOfRemove(b, j);
      SizeOfPermutation(a', b');
    }
  }

  lemma SizeOfNext(front: seq<Err>, e: Err)
    ensures SizeOf(front + [e]) == SizeOf(front) + Size(e)
  {
    assert (front + [e])[..|front|] == front;
  }

  lemma {:induction false} SizeOfRemove(b: seq<Err>, j: nat)
    requires j < |b|
    ensures SizeOf(b) == SizeOf(b[..j] + b[j + 1..]) + Size(b[j])
    decreases |b|
  {
    var k := |b| - 1;
    assert b == b[..k] + [b[k]];
    SizeOfNext(b[..k], b[k]);
    if j == k {
      assert b[..j] + b[j + 1..] == b[..k];
    } else {
      SizeOfRemove(b[..k], j);
      var rest := b[..k][..j] + b[..k][j + 1..];
      SizeOfNext(rest, b[k]);
      assert b[..j] + b[j + 1..] == rest + [b[k]];
    }
  }

  lemma NoneBuriedIsKept(leaves: seq<Err>)
    requires forall i | 0 <= i < |leaves| :: !Buried(leaves[i])
    ensures AllKept(leaves) == leaves
  {
    forall i | 0 <= i < |leaves| ensures AllKept(leaves)[i] == leaves[i] {
      assert !Buried(leaves[i]);
    }
  }

  /** What is kept of the leaves is the leaves exactly when none buries an entry failure. */
  lemma KeptIffNoneBuried(leaves: seq<Err>)
    ensures multiset(AllKept(leaves)) == multiset(leaves) <==> forall i | 0 <= i < |leaves| :: !Buried(leaves[i])
  {
    if forall i | 0 <= i < |leaves| :: !Buried(leaves[i]) {
      NoneBuriedIsKept(leaves);
    } else {
      KeptSizes(leaves);
      if multiset(AllKept(leaves)) == multiset(leaves) {
        SizeOfPermutation(AllKept(leaves), leaves);
      }
    }
  }

  /** A failure of a request is sent to the first row for it. */
  lemma {:induction false} FailureReachesFirstRow(keys: seq<Request>, leaves: seq<Err>, i: nat, e: Err)
    requires e in leaves && e.EntryFailure? && i == FirstRow(keys, (e.ref, e.platform)) < |keys|
    ensures e in Sent(keys, leaves, i)
    decreases |leaves|
  {
    var k := |leaves| - 1;
    assert leaves == leaves[..k] + [leaves[k]];
    SentOne(keys, leaves[..k], leaves[k], i);
    if leaves[k] != e {
      FailureReachesFirstRow(keys, leaves[..k], i, e);
    }
  }

  /** With distinct requests that is the one row for it. */
  lemma FailureReachesRow(keys: seq<Request>, leaves: seq<Err>, i: nat, e: Err)
    requires e in leaves && e.EntryFailure? && i < |keys| && keys[i] == (e.ref, e.platform) && NoDuplicates(keys)
    ensures e in Sent(keys, leaves, i)
  {
    assert FirstRow(keys, keys[i]) == i;
    FailureReachesFirstRow(keys, leaves, i, e);
  }

  /** Failures of other requests send nothing here. */
  lemma {:induction false} NothingSent(keys: seq<Request>, leaves: seq<Err>, i: nat)
    requires i < |keys| && forall e | e in leaves :: e.EntryFailure? && (e.ref, e.platform) != keys[i]
    ensures Sent(keys, leaves, i) == []
    decreases |leaves|
  {
    if leaves != [] {
      var k := |leaves| - 1;
      assert leaves == leaves[..k] + [leaves[k]];
      SentOne(keys, leaves[..k], leaves[k], i);
      NothingSent(keys, leaves[..k], i);
    }
  }

  /** Of two rows for one request, the second never gets an error. */
  lemma {:induction false} RepeatedRowGetsNothing(keys: seq<Request>, leaves: seq<Err>, i: nat, j: nat)
    requires i < j < |keys| && keys[i] == keys[j]
    ensures Sent(keys, leaves, j) == []
    decreases |leaves|
  {
    if leaves != [] {
      var k := |leaves| - 1;
      assert leaves == leaves[..k] + [leaves[k]];
      SentOne(keys, leaves[..k], leaves[k], j);
      RepeatedRowGetsNothing(keys, leaves[..k], i, j);
    }
  }

  /** Failures of requests only: nothing is returned. */
  lemma {:induction false} NothingReturned(keys: seq<Request>, leaves: seq<Err>)
    requires forall e | e in leaves :: e.EntryFailure? && (e.ref, e.platform) in keys
    ensures Sent(keys, leaves, |keys|) == []
    decreases |leaves|
  {
    if leaves != [] {
      var k := |leaves| - 1;
      NothingReturned(keys, leaves[..k]);
      assert leaves == leaves[..k] + [leaves[k]];
      SentOne(keys, leaves[..k], leaves[k], |keys|);
      assert leaves[k] in leaves;
      var i :| 0 <= i < |keys| && keys[i] == (leaves[k].ref, leaves[k].platform);
    }
  }

  // ---------------------------------------------------------------------------------------------

  method SumSize(descs: seq<Descriptor>) returns (n: int)
    ensures n == Sum(descs)
  {
    n := 0;
    for i := 0 to |descs|
      invariant n == Sum(descs[..i])
    {
      assert descs[..i + 1][..i] == descs[..i];
      n := n + descs[i].size;
    }
    assert descs[..|descs|] == descs;
  }

  /** Row `row` answers request q with the plan entry it claims, or with none. */
  ghost predicate Answers(plan: seq<Entry>, row: Row, claim: Option<nat>) {
    match claim
    case None => row.manifest.None? && row.missing == 0 && row.present == 0
    case Some(c) =>
      && c < |plan| && KeyOf(plan[c]) == (row.ref, row.platform)
      && row.manifest == Some(plan[c].image.manifest.digest)
      && row.missing == Sum(plan[c].missing) && row.present == Sum(plan[c].present)
  }

  /** No entry is claimed twice, and a request goes unanswered only when no entry for it is left. */
  ghost predicate ClaimsOK(plan: seq<Entry>, rows: seq<Row>, claims: seq<Option<nat>>) {
    && |claims| == |rows|
    && (forall k | 0 <= k < |rows| :: Answers(plan, rows[k], claims[k]))
    && (forall j, k | 0 <= j < k < |rows| && claims[j].Some? :: claims[j] != claims[k])
    && (forall k, c | 0 <= k < |rows| && claims[k].None? && 0 <= c < |plan| ::
          KeyOf(plan[c]) == (rows[k].ref, rows[k].platform) ==> Some(c as nat) in claims[..k])
  }

  ghost predicate NoErrors(rows: seq<Row>) {
    forall k | 0 <= k < |rows| :: rows[k].err.None?
  }

  /** used holds exactly for the entries some row has claimed. */
  ghost predicate UsedOK(used: seq<bool>, claims: seq<Option<nat>>) {
    forall c: nat | c < |used| :: used[c] <==> Some(c) in claims
  }

  /** Each row has got, after what it had, exactly the errors the leaves send to it; nothing else changed. */
  ghost predicate Recorded(before: seq<Row>, after: seq<Row>, leaves: seq<Err>) {
    |after| == |before| && forall i | 0 <= i < |after| :: RowGot(before[i], after[i], Sent(Keys(before), leaves, i))
  }

  ghost predicate RowGot(before: Row, after: Row, errs: seq<Err>) {
    && after == before.(err := after.err) && Leaves(after.err) == Leaves(before.err) + errs
    && (errs == [] ==> after == before)
  }

  lemma Assoc<T>(a: seq<T>, b: seq<T>, c: seq<T>)
    ensures (a + b) + c == a + (b + c)
  {
  }

  lemma RecordedOne(before: seq<Row>, was: seq<Row>, after: seq<Row>, done: seq<Err>, leaf: Err)
    requires Recorded(before, was, done) && |after| == |was|
    requires forall k | 0 <= k < |after| :: RowGot(was[k], after[k], One(Tag(Keys(was), leaf), k))
    ensures Keys(was) == Keys(before) && Recorded(before, after, done + [leaf])
    ensures Sent(Keys(before), done + [leaf], |was|) ==
      Sent(Keys(before), done, |was|) + One(Tag(Keys(before), leaf), |was|)
  {
    assert Keys(was) == Keys(before);
    SentOne(Keys(before), done, leaf, |was|);
    forall i | 0 <= i < |after|
      ensures RowGot(before[i], after[i], Sent(Keys(before), done + [leaf], i))
    {
      assert RowGot(before[i], was[i], Sent(Keys(before), done, i));
      assert RowGot(was[i], after[i], One(Tag(Keys(was), leaf), i));
      SentOne(Keys(before), done, leaf, i);
      Assoc(Leaves(before[i].err), Sent(Keys(before), done, i), One(Tag(Keys(before), leaf), i));
    }
  }

  lemma NothingRecorded(rows: seq<Row>)
    ensures Recorded(rows, rows, []) && Sent(Keys(rows), [], |rows|) == []
  {
    forall k | 0 <= k < |rows| ensures RowGot(rows[k], rows[k], Sent(Keys(rows), [], k)) {
      assert Tags(Keys(rows), []) == [];
    }
    assert Tags(Keys(rows), []) == [];
  }

  /** The leaves of all rows. */
  function AllLeaves(rows: seq<Row>): seq<Err> {
    if rows == [] then [] else AllLeaves(rows[..|rows| - 1]) + Leaves(rows[|rows| - 1].err)
  }

  lemma AllLeavesNext(rows: seq<Row>, n: nat)
    requires 0 < n <= |rows|
    ensures AllLeaves(rows[..n]) == AllLeaves(rows[..n - 1]) + Leaves(rows[n - 1].err)
  {
    assert rows[..n][..n - 1] == rows[..n - 1];
  }

  /** The first n rows hold x as often as they did and as it was sent to them. */
  ghost predicate Grown(before: seq<Row>, after: seq<Row>, leaves: seq<Err>, n: nat, x: Err)
    requires n <= |before| == |after|
  {
    multiset(AllLeaves(after[..n]))[x] == multiset(AllLeaves(before[..n]))[x] + SentBelow(Keys(before), leaves, n, x)
  }

  lemma GrownNext(before: seq<Row>, after: seq<Row>, leaves: seq<Err>, n: nat, x: Err)
    requires n < |before| && Recorded(before, after, leaves)
    ensures Grown(before, after, leaves, n, x) ==> Grown(before, after, leaves, n + 1, x)
  {
    assert RowGot(before[n], after[n], Sent(Keys(before), leaves, n));
    AllLeavesNext(before, n + 1);
    AllLeavesNext(after, n + 1);
  }

  lemma AllLeavesGrow(before: seq<Row>, after: seq<Row>, leaves: seq<Err>, x: Err)
    requires Recorded(before, after, leaves)
    ensures Grown(before, after, leaves, |before|, x)
  {
    for n := 0 to |before|
      invariant Grown(before, after, leaves, n, x)
    {
      GrownNext(before, after, leaves, n, x);
    }
  }

  lemma CountKept(before: seq<Row>, after: seq<Row>, leaves: seq<Err>, rest: seq<Err>, x: Err)
    requires Recorded(before, after, leaves) && rest == Sent(Keys(before), leaves, |before|)
    ensures multiset(AllLeaves(after))[x] + multiset(rest)[x] ==
      multiset(AllLeaves(before))[x] + multiset(AllKept(leaves))[x]
  {
    AllLeavesGrow(before, after, leaves, x);
    assert after[..|before|] == after && before[..|before|] == before;
    SentConserves(Keys(before), leaves, x);
  }

  /** Everything kept of the leaves is in a row or returned, beside what the rows held. */
  lemma RecordKeepsAll(before: seq<Row>, after: seq<Row>, leaves: seq<Err>, rest: seq<Err>)
    requires Recorded(before, after, leaves) && rest == Sent(Keys(before), leaves, |before|)
    ensures multiset(AllLeaves(after)) + multiset(rest) == multiset(AllLeaves(before)) + multiset(AllKept(leaves))
  {
    forall x
      ensures multiset(AllLeaves(after))[x] + multiset(rest)[x] ==
        multiset(AllLeaves(before))[x] + multiset(AllKept(leaves))[x]
    {
      CountKept(before, after, leaves, rest, x);
    }
  }

  /**
   * After record, what the rows hold and what it returned is what the rows held before and every leaf
   * of the error, none lost and none twice, exactly when no leaf buries an entry failure in another
   * error: the wrapping text, and any further failure beside it, would be dropped.
   */
  lemma RecordConserves(before: seq<Row>, after: seq<Row>, leaves: seq<Err>, rest: seq<Err>)
    requires Recorded(before, after, leaves) && rest == Sent(Keys(before), leaves, |before|)
    ensures multiset(AllLeaves(after)) + multiset(rest) == multiset(AllLeaves(before)) + multiset(leaves)
      <==> forall i | 0 <= i < |leaves| :: !Buried(leaves[i])
  {
    RecordKeepsAll(before, after, leaves, rest);
    KeptIffNoneBuried(leaves);
    CancelLeft(multiset(AllLeaves(before)), multiset(AllKept(leaves)), multiset(leaves));
  }

  lemma CancelLeft<T>(a: multiset<T>, b: multiset<T>, c: multiset<T>)
    ensures a + b == a + c <==> b == c
  {
    if a + b == a + c {
      assert (a + b) - a == b && (a + c) - a == c;
    }
  }

  /** The rows of one copy; record updates them in place. */
  class Result {
    var rows: seq<Row>

    /** newResult: one row per request, each claiming the first unused plan entry for it. */
    constructor (refs: seq<Reference>, platforms: seq<Platform>, plan: seq<Entry>)
      ensures Keys(rows) == Requests(refs, platforms)
      ensures NoErrors(rows) && exists claims :: ClaimsOK(plan, rows, claims)
    {
      new;
      rows := [];
      ghost var claims: seq<Option<nat>> := [];
      var used := new bool[|plan|](_ => false);
      for i := 0 to |refs|
        invariant Keys(rows) == Requests(refs[..i], platforms) && NoErrors(rows)
        invariant ClaimsOK(plan, rows, claims) && UsedOK(used[..], claims)
      {
        assert refs[..i + 1][..i] == refs[..i];
        claims := AddRows(refs[i], platforms, plan, used, claims);
      }
      assert refs[..|refs|] == refs;
    }

    method AddRows(
        ref: Reference, platforms: seq<Platform>, plan: seq<Entry>, used: array<bool>, ghost before: seq<Option<nat>>)
      returns (ghost claims: seq<Option<nat>>)
      requires used.Length == |plan| && NoErrors(rows) && ClaimsOK(plan, rows, before) && UsedOK(used[..], before)
      modifies this, used
      ensures Keys(rows) == Keys(old(rows)) + Pairs(ref, platforms) && NoErrors(rows)
      ensures ClaimsOK(plan, rows, claims) && UsedOK(used[..], claims)
    {
      claims := before;
      for j := 0 to |platforms|
        invariant Keys(rows) == Keys(old(rows)) + Pairs(ref, platforms)[..j] && NoErrors(rows)
        invariant ClaimsOK(plan, rows, claims) && UsedOK(used[..], claims)
      {
        var row, claim := Claim(ref, platforms[j], plan, used);
        ClaimsGrow(plan, rows, claims, row, claim);
        assert Keys(rows + [row]) == Keys(rows) + [(ref, platforms[j])];
        rows, claims := rows + [row], claims + [claim];
      }
    }

    method Claim(ref: Reference, p: Platform, plan: seq<Entry>, used: array<bool>)
      returns (row: Row, ghost claim: Option<nat>)
      requires used.Length == |plan|
      modifies used
      ensures row.ref == ref && row.platform == p && row.err.None? && Answers(plan, row, claim)
      ensures forall c: nat | c < |plan| :: used[c] == (old(used[c]) || claim == Some(c))
      ensures claim.Some? ==> !old(used[claim.value])
      ensures claim.None? ==> forall c | 0 <= c < |plan| && KeyOf(plan[c]) == (ref, p) :: old(used[c])
    {
      row, claim := Row(ref, p, None, 0, 0, None), None;
      for c := 0 to |plan|
        invariant used[..] == old(used[..])
        invariant forall k | 0 <= k < c && KeyOf(plan[k]) == (ref, p) :: used[k]
      {
        if !used[c] && KeyOf(plan[c]) == (ref, p) {
          used[c] := true;
          var missing := SumSize(plan[c].missing);
          var present := SumSize(plan[c].present);
          return Row(ref, p, Some(plan[c].image.manifest.digest), missing, present, None), Some(c);
        }
      }
    }

    /**
     * Attaches each entry failure among the leaves of err to the first row it names and returns the
     * rest; nothing else about the rows changes.
     */
    method Record(err: Option<Err>) returns (rest: Option<Err>)
      modifies this
      ensures Recorded(old(rows), rows, Leaves(err))
      ensures Leaves(rest) == Sent(Keys(old(rows)), Leaves(err), |rows|) && (rest.None? <==> Leaves(rest) == [])
    {
      var others := RecordLeaves(Leaves(err));
      RestLeaves(Keys(old(rows)), err, |rows|);
      rest := Join(others);
    }

    method RecordLeaves(leaves: seq<Err>) returns (others: seq<Err>)
      modifies this
      ensures Recorded(old(rows), rows, leaves) && others == Sent(Keys(old(rows)), leaves, |rows|)
    {
      others := [];
      ghost var before, done: seq<Err> := rows, [];
      NothingRecorded(before);
      for k := 0 to |leaves|
        invariant done == leaves[..k] && Recorded(before, rows, done) && others == Sent(Keys(before), done, |before|)
      {
        var left := RecordNext(leaves[k], before, done);
        others, done := others + left, done + [leaves[k]];
      }
      assert leaves[..|leaves|] == leaves;
    }

    /** One leaf more than `done`, whose recording began with the rows `before`. */
    method RecordNext(leaf: Err, ghost before: seq<Row>, ghost done: seq<Err>) returns (left: seq<Err>)
      requires Recorded(before, rows, done)
      modifies this
      ensures Recorded(before, rows, done + [leaf])
      ensures Sent(Keys(before), done + [leaf], |before|) == Sent(Keys(before), done, |before|) + left
    {
      left := RecordLeaf(leaf);
      RecordedOne(before, old(rows), rows, done, leaf);
    }

    /** One leaf: to its row, or returned. */
    method RecordLeaf(leaf: Err) returns (left: seq<Err>)
      modifies this
      ensures left == One(Tag(Keys(old(rows)), leaf), |old(rows)|) && |rows| == |old(rows)|
      ensures forall k | 0 <= k < |rows| :: RowGot(old(rows)[k], rows[k], One(Tag(Keys(old(rows)), leaf), k))
    {
      var entry := AsEntry(leaf);
      if entry.None? {
        return [leaf];
      }
      var attached := Attach(entry.value);
      left := if attached then [] else [entry.value];
    }

    /** Joins an entry failure into the first row it names, if there is one. */
    method Attach(e: Err) returns (attached: bool)
      requires e.EntryFailure?
      modifies this
      ensures var i := FirstRow(Keys(old(rows)), (e.ref, e.platform));
        && (attached <==> i < |old(rows)|)
        && |rows| == |old(rows)|
        && (forall k | 0 <= k < |rows| :: RowGot(old(rows)[k], rows[k], if k == i then [e] else []))
    {
      var i := FindRow((e.ref, e.platform));
      attached := i < |rows|;
      if attached {
        JoinLeaves(rows[i].err, e);
        rows := rows[i := rows[i].(err := Join(Opt(rows[i].err) + [e]))];
      }
    }

    method FindRow(q: Request) returns (i: nat)
      ensures i == FirstRow(Keys(rows), q)
    {
      i := 0;
      while i < |rows| && (rows[i].ref, rows[i].platform) != q
        invariant i <= |rows| && forall k | 0 <= k < i :: Keys(rows)[k] != q
      {
        i := i + 1;
      }
    }

    /** err: the failures of the rows, joined. */
    method Err() returns (err: Option<Err>)
      ensures Leaves(err) == AllLeaves(rows)
      ensures err.None? <==> forall i | 0 <= i < |rows| :: rows[i].err.None?
    {
      var errs: seq<Err> := [];
      for i := 0 to |rows|
        invariant FlattenAll(errs) == AllLeaves(rows[..i])
        invariant errs == [] <==> forall k | 0 <= k < i :: rows[k].err.None?
      {
        assert rows[..i + 1][..i] == rows[..i];
        FlattenAllConcat(errs, Opt(rows[i].err));
        FlattenOpt(rows[i].err);
        errs := errs + Opt(rows[i].err);
      }
      assert rows[..|rows|] == rows;
      err := Join(errs);
    }
  }

  lemma ClaimsGrow(plan: seq<Entry>, rows: seq<Row>, claims: seq<Option<nat>>, row: Row, claim: Option<nat>)
    requires ClaimsOK(plan, rows, claims) && Answers(plan, row, claim)
    requires claim.Some? ==> claim !in claims
    requires claim.None? ==> forall c: nat | c < |plan| && KeyOf(plan[c]) == (row.ref, row.platform) ::
      Some(c) in claims
    ensures ClaimsOK(plan, rows + [row], claims + [claim])
  {
    var rows', claims' := rows + [row], claims + [claim];
    assert claims'[..|claims|] == claims;
    forall k, c | 0 <= k < |rows'| && claims'[k].None? && 0 <= c < |plan|
      ensures KeyOf(plan[c]) == (rows'[k].ref, rows'[k].platform) ==> Some(c as nat) in claims'[..k]
    {
      if k < |rows| {
        assert claims'[..k] == claims[..k];
      }
    }
  }

  lemma RestLeaves(keys: seq<Request>, err: Option<Err>, i: nat)
    ensures Leaves(Join(Sent(keys, Leaves(err), i))) == Sent(keys, Leaves(err), i)
  {
    LeavesHaveNoJoin(err);
    SentHasNoJoin(keys, Leaves(err), i);
    FlattenLeaves(Sent(keys, Leaves(err), i));
  }

  lemma {:induction false} SentHasNoJoin(keys: seq<Request>, leaves: seq<Err>, i: nat)
    requires NoJoin(leaves)
    ensures NoJoin(Sent(keys, leaves, i))
    decreases |leaves|
  {
    if leaves != [] {
      var k := |leaves| - 1;
      SentHasNoJoin(keys, leaves[..k], i);
      assert leaves == leaves[..k] + [leaves[k]];
      SentOne(keys, leaves[..k], leaves[k], i);
    }
  }
}
