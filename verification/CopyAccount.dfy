/** What the rows of a copy say, given what planning and the push reported: no request need be distinct. */
module CopyAccount {
  import opened Content
  import opened ImageModel
  import SP = StoreProtocol
  import opened StoreModel = Store
  import opened Errors
  import opened Planning
  import opened PushProtocol
  import opened PushSafety
  import opened Transfer
  import opened CopyResult

  /** The plan, which of its entries each row claims, and the leaves of the two errors. */
  datatype Account = Account(plan: seq<Entry>, claims: seq<Option<nat>>, planErrs: seq<Err>, pushErrs: seq<Err>)

  ghost predicate RowHas(err: Option<Err>, leaves: seq<Err>) {
    Leaves(err) == leaves && (err.None? <==> leaves == [])
  }

  /**
   * The rows stand for the requests: each claims a plan entry of its own while one is left, and holds
   * exactly the errors that record sends to it.
   */
  ghost predicate Accounted(a: Account, keys: seq<Request>, rows: seq<Row>) {
    && Keys(rows) == keys && ClaimsOK(a.plan, rows, a.claims)
    && Answered(keys, a.plan, a.planErrs) && FailuresOnly(a.planErrs, false)
    && (forall x | x in a.pushErrs :: NamesOne(x, a.plan))
    && forall k | 0 <= k < |rows| :: RowHas(rows[k].err, Sent(keys, a.planErrs, k) + Sent(keys, a.pushErrs, k))
  }

  ghost predicate AllSettled(w: World, es: SP.Entries, a: Account) {
    forall i | 0 <= i < |a.plan| :: Settled(w, es, a.pushErrs, a.plan[i])
  }

  ghost predicate InLeaf(w: World, es: SP.Entries, row: Row) {
    row.manifest.Some? && SP.Holds(w, es, SP.LeafOf(row.ref, row.platform), row.manifest.value)
  }

  /** A row that ended without an error names a leaf that holds its manifest. */
  ghost predicate RowDone(w: World, es: SP.Entries, row: Row) {
    row.err.None? ==> InLeaf(w, es, row)
  }

  // ---------------------------------------------------------------------------------------------
  // From recorded rows to the account

  lemma RowsHave(rows0: seq<Row>, rows1: seq<Row>, rows2: seq<Row>, planErrs: seq<Err>, pushErrs: seq<Err>)
    requires NoErrors(rows0) && Recorded(rows0, rows1, planErrs) && Recorded(rows1, rows2, pushErrs)
    ensures Keys(rows2) == Keys(rows0)
    ensures forall k | 0 <= k < |rows2| ::
      RowHas(rows2[k].err, Sent(Keys(rows0), planErrs, k) + Sent(Keys(rows0), pushErrs, k))
  {
    assert Keys(rows1) == Keys(rows0);
    forall k | 0 <= k < |rows2|
      ensures RowHas(rows2[k].err, Sent(Keys(rows0), planErrs, k) + Sent(Keys(rows0), pushErrs, k))
    {
      assert RowGot(rows0[k], rows1[k], Sent(Keys(rows0), planErrs, k));
      assert RowGot(rows1[k], rows2[k], Sent(Keys(rows1), pushErrs, k));
      Assoc(Leaves(rows0[k].err), Sent(Keys(rows0), planErrs, k), Sent(Keys(rows0), pushErrs, k));
    }
  }

  lemma ClaimsStay(plan: seq<Entry>, rows: seq<Row>, later: seq<Row>, leaves: seq<Err>, claims: seq<Option<nat>>)
    requires ClaimsOK(plan, rows, claims) && Recorded(rows, later, leaves)
    ensures ClaimsOK(plan, later, claims)
  {
    forall k | 0 <= k < |later| ensures later[k] == rows[k].(err := later[k].err) {
      assert RowGot(rows[k], later[k], Sent(Keys(rows), leaves, k));
    }
    forall k | 0 <= k < |later| ensures Answers(plan, later[k], claims[k]) {
      assert Answers(plan, rows[k], claims[k]);
    }
  }

  /** Every failure of planning, and every one of the push, names a requested row. */
  lemma FailuresHaveRows(requests: seq<Request>, plan: seq<Entry>, planErrs: seq<Err>)
    requires Answered(requests, plan, planErrs) && FailuresOnly(planErrs, false)
    ensures forall x | x in planErrs :: x.EntryFailure? && (x.ref, x.platform) in requests
    ensures forall x | NamesOne(x, plan) :: x.EntryFailure? && (x.ref, x.platform) in requests
  {
    SplitConserves(requests, KeysOf(plan), FailedKeys(planErrs));
    forall x | x in planErrs ensures x.EntryFailure? && (x.ref, x.platform) in requests {
      FailedKeysMembers(planErrs, (x.ref, x.platform));
      assert (x.ref, x.platform) in multiset(FailedKeys(planErrs));
      assert (x.ref, x.platform) in multiset(requests);
    }
    forall x | NamesOne(x, plan) ensures x.EntryFailure? && (x.ref, x.platform) in requests {
      var i :| 0 <= i < |plan| && Names(x, plan[i]);
      assert KeysOf(plan)[i] in multiset(KeysOf(plan));
      assert KeyOf(plan[i]) in multiset(requests);
    }
  }

  /** Failures of requests all go to rows, none lost and none twice. */
  lemma RowsKeepAll(before: seq<Row>, after: seq<Row>, leaves: seq<Err>)
    requires Recorded(before, after, leaves)
    requires forall x | x in leaves :: x.EntryFailure? && (x.ref, x.platform) in Keys(before)
    ensures Sent(Keys(before), leaves, |before|) == []
    ensures multiset(AllLeaves(after)) == multiset(AllLeaves(before)) + multiset(leaves)
  {
    NothingReturned(Keys(before), leaves);
    NothingBuried(leaves);
    var rest := Sent(Keys(before), leaves, |before|);
    RecordConserves(before, after, leaves, rest);
    NothingAdded(multiset(AllLeaves(after)), rest);
  }

  lemma NothingBuried(leaves: seq<Err>)
    requires forall x | x in leaves :: x.EntryFailure?
    ensures forall i | 0 <= i < |leaves| :: !Buried(leaves[i])
  {
    forall i | 0 <= i < |leaves| ensures !Buried(leaves[i]) {
      assert leaves[i] in leaves;
    }
  }

  lemma NothingAdded<T>(m: multiset<T>, s: seq<T>)
    requires s == []
    ensures m + multiset(s) == m
  {
  }

  lemma {:induction false} NoErrorsNoLeaves(rows: seq<Row>)
    requires NoErrors(rows)
    ensures AllLeaves(rows) == []
    decreases |rows|
  {
    if rows != [] {
      NoErrorsNoLeaves(rows[..|rows| - 1]);
    }
  }

  // ---------------------------------------------------------------------------------------------
  // The first row of a request

  /** Each request was planned or failed to be, as often as it was made. */
  lemma PlannedOrFailed(keys: seq<Request>, plan: seq<Entry>, errs: seq<Err>, q: Request)
    requires Answered(keys, plan, errs)
    ensures multiset(keys)[q] == multiset(KeysOf(plan))[q] + multiset(FailedKeys(errs))[q]
  {
    SplitConserves(keys, KeysOf(plan), FailedKeys(errs));
  }

  /** A plan entry for a row's request has been claimed by that row or an earlier one for it. */
  lemma EntryIsClaimed(plan: seq<Entry>, rows: seq<Row>, claims: seq<Option<nat>>, k: nat, c: nat) returns (j: nat)
    requires ClaimsOK(plan, rows, claims) && k < |rows| && c < |plan| && KeyOf(plan[c]) == Keys(rows)[k]
    requires claims[k].None?
    ensures j < k && claims[j] == Some(c) && Keys(rows)[j] == Keys(rows)[k]
  {
    assert Some(c) in claims[..k];
    j :| 0 <= j < k && claims[j] == Some(c);
    assert Answers(plan, rows[j], claims[j]);
  }

  /** An error that names a row's request is an error of the first row for it. */
  lemma FailureShows(a: Account, keys: seq<Request>, rows: seq<Row>, k: nat, x: Err)
    requires Accounted(a, keys, rows) && k < |rows| && FirstRow(keys, keys[k]) == k
    requires (x in a.planErrs || x in a.pushErrs) && x.EntryFailure? && (x.ref, x.platform) == keys[k]
    ensures rows[k].err.Some?
  {
    if x in a.planErrs {
      FailureReachesFirstRow(keys, a.planErrs, k, x);
    } else {
      FailureReachesFirstRow(keys, a.pushErrs, k, x);
    }
  }

  lemma UnplannedShows(a: Account, keys: seq<Request>, rows: seq<Row>, k: nat)
    requires Accounted(a, keys, rows) && k < |rows| && FirstRow(keys, keys[k]) == k && keys[k] in FailedKeys(a.planErrs)
    ensures rows[k].err.Some?
  {
    FailedKeysMembers(a.planErrs, keys[k]);
    var x :| x in a.planErrs && x.EntryFailure? && (x.ref, x.platform) == keys[k];
    FailureShows(a, keys, rows, k, x);
  }

  /** The first row of each request without an error names a leaf holding its manifest. */
  lemma FirstRowIsDone(w: World, es: SP.Entries, a: Account, keys: seq<Request>, rows: seq<Row>, k: nat)
    requires Accounted(a, keys, rows) && AllSettled(w, es, a) && k < |rows| && FirstRow(keys, keys[k]) == k
    ensures RowDone(w, es, rows[k])
  {
    if keys[k] in FailedKeys(a.planErrs) {
      UnplannedShows(a, keys, rows, k);
    } else {
      var c := FirstRowClaims(a, keys, rows, k);
      EntryInLeaf(w, es, a, keys, rows, k, c);
    }
  }

  lemma FirstRowClaims(a: Account, keys: seq<Request>, rows: seq<Row>, k: nat) returns (c: nat)
    requires Accounted(a, keys, rows) && k < |rows|
    requires FirstRow(keys, keys[k]) == k && keys[k] !in FailedKeys(a.planErrs)
    ensures c < |a.plan| && a.claims[k] == Some(c)
  {
    PlannedOrFailed(keys, a.plan, a.planErrs, keys[k]);
    assert keys[k] in multiset(keys);
    var i :| 0 <= i < |a.plan| && KeysOf(a.plan)[i] == keys[k];
    if a.claims[k].None? {
      var j := EntryIsClaimed(a.plan, rows, a.claims, k, i);
    }
    assert Answers(a.plan, rows[k], a.claims[k]);
    c := a.claims[k].value;
  }

  /** A row's entry is in its leaf, or the first row for the request has an error. */
  lemma EntryInLeaf(w: World, es: SP.Entries, a: Account, keys: seq<Request>, rows: seq<Row>, k: nat, c: nat)
    requires Accounted(a, keys, rows) && AllSettled(w, es, a) && k < |rows| && a.claims[k] == Some(c)
    ensures InLeaf(w, es, rows[k]) || rows[FirstRow(keys, keys[k])].err.Some?
  {
    assert Answers(a.plan, rows[k], a.claims[k]);
    assert Settled(w, es, a.pushErrs, a.plan[c]);
    if Named(a.pushErrs, a.plan[c]) {
      var x :| 0 <= x < |a.pushErrs| && Names(a.pushErrs[x], a.plan[c]);
      FailureShows(a, keys, rows, FirstRow(keys, keys[k]), a.pushErrs[x]);
    }
  }

  // ---------------------------------------------------------------------------------------------
  // Later rows of a request

  /** Row k claims an entry of the plan, and the entry's leaf holds its manifest. */
  ghost predicate ClaimInLeaf(w: World, es: SP.Entries, a: Account, k: nat) {
    && k < |a.claims| && a.claims[k].Some? && a.claims[k].value < |a.plan|
    && var img := a.plan[a.claims[k].value].image;
    SP.Holds(w, es, SP.LeafOf(img.ref, img.platform), img.manifest.digest)
  }

  /** A later row never has an error, and names a committed leaf exactly when it claims an entry whose leaf holds it. */
  lemma LaterRow(w: World, es: SP.Entries, a: Account, keys: seq<Request>, rows: seq<Row>, k: nat)
    requires Accounted(a, keys, rows) && k < |rows| && FirstRow(keys, keys[k]) < k
    ensures rows[k].err.None?
    ensures RowDone(w, es, rows[k]) <==> ClaimInLeaf(w, es, a, k)
  {
    RepeatedRowGetsNothing(keys, a.planErrs, FirstRow(keys, keys[k]), k);
    RepeatedRowGetsNothing(keys, a.pushErrs, FirstRow(keys, keys[k]), k);
    assert Answers(a.plan, rows[k], a.claims[k]);
  }

  function Positions<T(==)>(s: seq<T>, x: T, n: nat): set<nat>
    requires n <= |s|
  {
    set j: nat | j < n && s[j] == x
  }

  lemma {:induction false} PositionsCount<T>(s: seq<T>, x: T, n: nat)
    requires n <= |s|
    ensures |Positions(s, x, n)| == multiset(s[..n])[x]
    decreases n
  {
    if n > 0 {
      PositionsCount(s, x, n - 1);
      assert s[..n] == s[..n - 1] + [s[n - 1]];
      assert Positions(s, x, n) == Positions(s, x, n - 1) + (if s[n - 1] == x then {n - 1} else {});
    }
  }

  /** Entries claimed by rows are no more than the rows that claim them. */
  lemma {:induction false} ClaimedByAsMany(claims: seq<Option<nat>>, cs: set<nat>, js: set<nat>)
    requires forall c | c in cs :: exists j :: j in js && j < |claims| && claims[j] == Some(c)
    ensures |cs| <= |js|
    decreases |cs|
  {
    if cs != {} {
      var c :| c in cs;
      var j :| j in js && j < |claims| && claims[j] == Some(c);
      forall d | d in cs - {c} ensures exists i :: i in js - {j} && i < |claims| && claims[i] == Some(d) {
        var i :| i in js && i < |claims| && claims[i] == Some(d);
        assert i in js - {j};
      }
      ClaimedByAsMany(claims, cs - {c}, js - {j});
    }
  }

  lemma FewerBefore<T>(s: seq<T>, k: nat)
    requires k < |s|
    ensures multiset(s[..k])[s[k]] < multiset(s)[s[k]]
  {
    assert s == s[..k] + [s[k]] + s[k + 1..];
  }

  /** When no request of a kind failed to be planned, each row for it has an entry. */
  lemma EveryRowClaims(a: Account, keys: seq<Request>, rows: seq<Row>, k: nat)
    requires Accounted(a, keys, rows) && k < |rows| && keys[k] !in FailedKeys(a.planErrs)
    ensures a.claims[k].Some?
  {
    if a.claims[k].None? {
      var cs, js := Positions(KeysOf(a.plan), keys[k], |a.plan|), Positions(keys, keys[k], k);
      forall c | c in cs ensures exists j :: j in js && j < |a.claims| && a.claims[j] == Some(c) {
        var j := EntryIsClaimed(a.plan, rows, a.claims, k, c);
        assert j in js;
      }
      ClaimedByAsMany(a.claims, cs, js);
      PositionsCount(KeysOf(a.plan), keys[k], |a.plan|);
      PositionsCount(keys, keys[k], k);
      PlannedOrFailed(keys, a.plan, a.planErrs, keys[k]);
      assert KeysOf(a.plan)[..|a.plan|] == KeysOf(a.plan);
      FewerBefore(keys, k);
    }
  }

  /** When the first row of a request has no error, every row of that request names a leaf holding its manifest. */
  lemma RowsFollowTheFirst(w: World, es: SP.Entries, a: Account, keys: seq<Request>, rows: seq<Row>, k: nat)
    requires Accounted(a, keys, rows) && AllSettled(w, es, a) && k < |rows|
    requires rows[FirstRow(keys, keys[k])].err.None?
    ensures InLeaf(w, es, rows[k])
  {
    var f := FirstRow(keys, keys[k]);
    if keys[k] in FailedKeys(a.planErrs) {
      UnplannedShows(a, keys, rows, f);
    } else {
      EveryRowClaims(a, keys, rows, k);
      assert Answers(a.plan, rows[k], a.claims[k]);
      EntryInLeaf(w, es, a, keys, rows, k, a.claims[k].value);
    }
  }

  // ---------------------------------------------------------------------------------------------
  // Which platforms make every row speak for itself

  ghost predicate AllRowsDone(w: World, es: SP.Entries, rows: seq<Row>) {
    forall k | 0 <= k < |rows| :: RowDone(w, es, rows[k])
  }

  /** However a copy for these requests ends, every row without an error names a leaf holding its manifest. */
  ghost predicate AlwaysDone(w: World, keys: seq<Request>) {
    forall es, a, rows | Accounted(a, keys, rows) && AllSettled(w, es, a) :: AllRowsDone(w, es, rows)
  }

  function Unresolvable(keys: seq<Request>): (errs: seq<Err>)
    ensures |errs| == |keys|
    ensures forall i | 0 <= i < |errs| :: errs[i] == EntryFailure(keys[i].0, keys[i].1, Wrapped(Plain(Unresolved)))
  {
    seq(|keys|, i requires 0 <= i < |keys| => EntryFailure(keys[i].0, keys[i].1, Wrapped(Plain(Unresolved))))
  }

  function EmptyRows(keys: seq<Request>): (rows: seq<Row>)
    ensures |rows| == |keys|
    ensures forall k | 0 <= k < |rows| ::
      rows[k] == Row(keys[k].0, keys[k].1, None, 0, 0, Join(Sent(keys, Unresolvable(keys), k)))
  {
    seq(|keys|, k requires 0 <= k < |keys| =>
      Row(keys[k].0, keys[k].1, None, 0, 0, Join(Sent(keys, Unresolvable(keys), k))))
  }

  lemma {:induction false} AllOnOneSide<T>(all: seq<T>)
    ensures IsSplit(all, [], all)
    decreases |all|
  {
    if all != [] {
      AllOnOneSide(all[..|all| - 1]);
    }
  }

  lemma {:induction false} UnresolvableKeys(keys: seq<Request>)
    ensures FailedKeys(Unresolvable(keys)) == keys
    decreases |keys|
  {
    if keys != [] {
      var k := |keys| - 1;
      UnresolvableKeys(keys[..k]);
      assert Unresolvable(keys)[..k] == Unresolvable(keys[..k]);
    }
  }

  /** The copy whose source resolves nothing. */
  function Nothing(keys: seq<Request>): Account {
    Account([], seq(|keys|, _ => None), Unresolvable(keys), [])
  }

  lemma NothingResolves(keys: seq<Request>)
    ensures Accounted(Nothing(keys), keys, EmptyRows(keys))
  {
    var a, rows := Nothing(keys), EmptyRows(keys);
    assert Keys(rows) == keys;
    UnresolvableKeys(keys);
    AllOnOneSide(keys);
    assert KeysOf(a.plan) == [];
    forall k | 0 <= k < |rows| ensures RowHas(rows[k].err, Sent(keys, a.planErrs, k) + Sent(keys, [], k)) {
      EmptyRowHas(keys, k);
    }
  }

  lemma EmptyRowHas(keys: seq<Request>, k: nat)
    requires k < |keys|
    ensures RowHas(EmptyRows(keys)[k].err, Sent(keys, Unresolvable(keys), k) + Sent(keys, [], k))
  {
    var sent := Sent(keys, Unresolvable(keys), k);
    SentHasNoJoin(keys, Unresolvable(keys), k);
    JoinHas(sent);
    assert Tags(keys, []) == [];
    NothingAppended(sent);
  }

  lemma JoinHas(leaves: seq<Err>)
    requires NoJoin(leaves)
    ensures RowHas(Join(leaves), leaves)
  {
    FlattenLeaves(leaves);
  }

  /** A request made twice that no plan entry answers leaves a row with neither an error nor a manifest. */
  lemma RepeatLeavesEmptyRow(a: Account, keys: seq<Request>, rows: seq<Row>, i: nat, j: nat)
    requires Accounted(a, keys, rows) && i < j < |keys| && keys[i] == keys[j] && keys[j] !in KeysOf(a.plan)
    ensures rows[j].err.None? && rows[j].manifest.None?
  {
    RepeatedRowGetsNothing(keys, a.planErrs, i, j);
    RepeatedRowGetsNothing(keys, a.pushErrs, i, j);
    ClaimsHaveKeys(a.plan, rows, a.claims);
    assert Answers(a.plan, rows[j], a.claims[j]);
  }

  lemma ClaimsHaveKeys(plan: seq<Entry>, rows: seq<Row>, claims: seq<Option<nat>>)
    requires ClaimsOK(plan, rows, claims)
    ensures forall k | 0 <= k < |rows| && claims[k].Some? :: Keys(rows)[k] in KeysOf(plan)
  {
    forall k | 0 <= k < |rows| && claims[k].Some? ensures Keys(rows)[k] in KeysOf(plan) {
      assert Answers(plan, rows[k], claims[k]);
      assert KeysOf(plan)[claims[k].value] == Keys(rows)[k];
    }
  }

  /** With distinct requests every row is the first of its kind. */
  lemma DistinctRowsAreDone(w: World, es: SP.Entries, a: Account, keys: seq<Request>, rows: seq<Row>)
    requires Accounted(a, keys, rows) && AllSettled(w, es, a) && NoDuplicates(keys)
    ensures AllRowsDone(w, es, rows)
  {
    forall k | 0 <= k < |rows| ensures RowDone(w, es, rows[k]) {
      assert FirstRow(keys, keys[k]) == k;
      FirstRowIsDone(w, es, a, keys, rows, k);
    }
  }

  lemma RepeatIsNotAlwaysDone(w: World, keys: seq<Request>, i: nat, j: nat)
    requires i < j < |keys| && keys[i] == keys[j]
    ensures !AlwaysDone(w, keys)
  {
    NothingResolves(keys);
    RepeatLeavesEmptyRow(Nothing(keys), keys, EmptyRows(keys), i, j);
    assert AllSettled(w, map[], Nothing(keys));
    assert !RowDone(w, map[], EmptyRows(keys)[j]);
    assert !AllRowsDone(w, map[], EmptyRows(keys));
  }

  /**
   * Every row without an error names a leaf holding its manifest, however the copy goes, exactly when
   * the requests are distinct.
   */
  lemma AlwaysDoneIffDistinct(w: World, keys: seq<Request>)
    ensures AlwaysDone(w, keys) <==> NoDuplicates(keys)
  {
    if NoDuplicates(keys) {
      forall es, a, rows | Accounted(a, keys, rows) && AllSettled(w, es, a) ensures AllRowsDone(w, es, rows) {
        DistinctRowsAreDone(w, es, a, keys, rows);
      }
    } else {
      var i, j :| 0 <= i < j < |keys| && keys[i] == keys[j];
      RepeatIsNotAlwaysDone(w, keys, i, j);
    }
  }

  /** Requests are distinct exactly when the platforms are, and the references. */
  lemma DistinctRequests(refs: seq<Reference>, platforms: seq<Platform>)
    requires refs != [] && NoDuplicates(refs)
    ensures NoDuplicates(Requests(refs, platforms)) <==> NoDuplicates(platforms)
  {
    if NoDuplicates(platforms) {
      RequestsAreDistinct(refs, platforms);
    } else {
      var i, j :| 0 <= i < j < |platforms| && platforms[i] == platforms[j];
      var front, last := Requests(refs[..|refs| - 1], platforms), Pairs(refs[|refs| - 1], platforms);
      assert (front + last)[|front| + i] == last[i] == last[j] == (front + last)[|front| + j];
    }
  }
}
