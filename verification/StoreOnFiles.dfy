/**
 * The store over the file system backend: processes of StoreProtocol whose creations are carried out
 * step by step by FsDir. Interleavings and crashes at any system call included, every run is a run of
 * the store over an atomic backend, so what is proved of that one holds of the files.
 */
module StoreOnFiles {
  import opened Content
  import opened ImageModel
  import SP = StoreProtocol
  import FS = FsDir
  import opened Paths
  import opened EntryPaths
  import SS = StoreSafety

  type Pid = nat
  type Phase = SP.Phase
  type Job = FS.Phase

  /** `path` gives entries their files; `fit` are the names whose paths are told apart. */
  datatype Params = Params(w: World, path: SP.Name -> FS.Path, fit: SP.Name -> bool)

  ghost predicate Distinct(c: Params) {
    && (forall a, b | c.fit(a) && c.fit(b) && c.path(a) == c.path(b) :: a == b)
    && (forall n | c.fit(n) :: !c.path(n).IsTemp())
  }

  // ---------------------------------------------------------------------------------------------
  // The entries a directory holds

  ghost function NameAt(c: Params, p: FS.Path): (n: Option<SP.Name>)
    ensures n.Some? ==> c.fit(n.value) && c.path(n.value) == p
    ensures n.None? ==> forall m | c.fit(m) :: c.path(m) != p
  {
    if exists m :: c.fit(m) && c.path(m) == p then
      var m :| c.fit(m) && c.path(m) == p;
      Some(m)
    else None
  }

  ghost function EntriesOf(c: Params, view: map<FS.Path, Bytes>): SP.Entries {
    map p | p in view && NameAt(c, p).Some? :: NameAt(c, p).value := view[p]
  }

  lemma EntriesAre(c: Params, view: map<FS.Path, Bytes>, n: SP.Name)
    requires Distinct(c) && c.fit(n)
    ensures n in EntriesOf(c, view) <==> c.path(n) in view
    ensures n in EntriesOf(c, view) ==> EntriesOf(c, view)[n] == view[c.path(n)]
  {
    if c.path(n) in view {
      assert NameAt(c, c.path(n)) == Some(n);
    }
  }

  lemma EntriesGrow(c: Params, view: map<FS.Path, Bytes>, n: SP.Name, body: Bytes)
    requires Distinct(c) && c.fit(n)
    ensures EntriesOf(c, view[c.path(n) := body]) == EntriesOf(c, view)[n := body]
  {
    var later := view[c.path(n) := body];
    forall m ensures m in EntriesOf(c, later) <==> m in EntriesOf(c, view)[n := body] {
      if c.fit(m) {
        EntriesAre(c, view, m);
        EntriesAre(c, later, m);
      }
    }
    forall m | m in EntriesOf(c, later) ensures EntriesOf(c, later)[m] == EntriesOf(c, view)[n := body][m] {
      EntriesAre(c, view, m);
      EntriesAre(c, later, m);
    }
  }

  // ---------------------------------------------------------------------------------------------
  // A store call that creates

  datatype Creation = Creation(name: SP.Name, body: Bytes, size: int, dgst: Option<Digest>)

  /** What the next call of a process in this phase creates; None when it only reads. */
  function CreationOf(w: World, ph: Phase): Option<Creation> {
    match ph
    case AtMarker(job, m, cfg, i) =>
      if i >= |m.layers| || i >= |cfg.diffIDs| then None
      else Some(Creation(SP.MarkerEntry(cfg.diffIDs[i], m.layers[i].digest), SP.EMPTY_OBJECT, |SP.EMPTY_OBJECT|, None))
    case AtLayout(job, _, _) => Some(Creation(SP.LayoutEntry(job.Leaf()), w.layout, |w.layout|, None))
    case AtIndex(job, _, _) =>
      var index := w.encodeIndex(job.ref, job.platform, job.manifest);
      Some(Creation(SP.IndexEntry(job.Leaf()), index, |index|, None))
    case AtCreate(desc, body) => Some(Creation(SP.BlobEntry(desc.digest), body, desc.size, Some(desc.digest)))
    case _ => None
  }

  /** Where the backend's answer takes the process. */
  function After(w: World, ph: Phase, created: Created): Phase {
    match ph
    case AtMarker(job, m, cfg, i) => SP.NextMarker(job, m, cfg, i + 1)
    case AtLayout(job, m, cfg) => SP.AtIndex(job, m, cfg)
    case AtIndex(job, _, _) => if created.Exists? then SP.AtReadBack(job) else SP.Committed(job, SP.Ok)
    case AtCreate(desc, _) => SP.Put(desc, if created.Refused? then SP.Err(SP.Refusal) else SP.Ok)
    case _ => ph
  }

  lemma CallCreates(w: World, es: SP.Entries, ph: Phase)
    ensures CreationOf(w, ph).None? ==> SP.Call(w, es, ph).0 == es
    ensures CreationOf(w, ph).Some? ==>
      var n := CreationOf(w, ph).value;
      var (later, created) := SP.Create(w, es, n.name, n.body, n.size, n.dgst);
      SP.Call(w, es, ph) == (later, After(w, ph, created))
  {
  }

  // ---------------------------------------------------------------------------------------------
  // The machine

  datatype State = State(fs: FS.State, procs: map<Pid, Phase>) {
    function Phase(p: Pid): Phase {
      if p in procs then procs[p] else SP.Idle
    }
  }

  datatype Event =
    | Begin(call: SP.Event)   // BeginCommit or BeginPut
    | Read(fails: bool)       // a backend call that creates nothing
    | Ask                     // Backend.Create is entered
    | File(sys: FS.Event)     // one system call inside it
    | Answer                  // and it returns
    | Crash

  /** Create writes the body it was given, in pieces, and verifies when all is written. */
  predicate Honours(body: Bytes, f: Job, e: FS.Event) {
    match e
    case Write(data) => f.Filling? && f.stream + data <= body
    case Verify => f.Filling? && f.stream == body
    case Begin(_) => false
    case Crash => false
    case _ => true
  }

  function Answered(w: World, ph: Phase, outcome: FS.Outcome): Phase {
    match outcome
    case Won => After(w, ph, Fresh)
    case Existed => After(w, ph, Exists)
    case Broke => SP.Failed(ph)
  }

  ghost function Step(c: Params, s: State, p: Pid, e: Event): Option<State> {
    var ph, f, next := s.Phase(p), s.fs.Phase(p), CreationOf(c.w, s.Phase(p));
    match e
    case Begin(b) =>
      if !ph.Over() then None
      else if b.BeginCommit? then Some(s.(procs := s.procs[p := SP.StartCommit(b.job)]))
      else if b.BeginPut? then Some(s.(procs := s.procs[p := SP.StartPut(b.desc, b.body)]))
      else None
    case Read(fails) =>
      if ph.Over() || next.Some? then None
      else
        var es := EntriesOf(c, FS.View(s.fs));
        Some(s.(procs := s.procs[p := if fails then SP.Failed(ph) else SP.Call(c.w, es, ph).1]))
    case Ask =>
      if next.None? || !c.fit(next.value.name) || !f.Idle? then None
      else OnFiles(c, s, p, FS.Begin(FS.Job(c.path(next.value.name), next.value.size, next.value.dgst)))
    case File(b) =>
      if next.None? || f.Idle? || !Honours(next.value.body, f, b) then None else OnFiles(c, s, p, b)
    case Answer =>
      if !f.Returned? then None
      else Some(State(s.fs.Go(p, FS.Idle), s.procs[p := Answered(c.w, ph, f.outcome)]))
    case Crash => Some(State(s.fs.Go(p, FS.Idle), s.procs[p := SP.Idle]))
  }

  function OnFiles(c: Params, s: State, p: Pid, e: FS.Event): Option<State> {
    match FS.Step(c.w.hash, s.fs, p, e) case None => None case Some(fs) => Some(s.(fs := fs))
  }

  ghost function Exec(c: Params, s: State, run: seq<(Pid, Event)>): Option<State>
    decreases |run|
  {
    if run == [] then Some(s)
    else
      match Step(c, s, run[0].0, run[0].1)
      case None => None
      case Some(s') => Exec(c, s', run[1..])
  }

  // ---------------------------------------------------------------------------------------------
  // What it stands for

  /** A creation that has taken effect, or found its name taken, counts as answered. */
  function Seen(w: World, ph: Phase, f: Job): Phase {
    if (f.Removing? || f.Returned?) && !f.outcome.Broke? then Answered(w, ph, f.outcome) else ph
  }

  function Phases(w: World, fs: FS.State, procs: map<Pid, Phase>): map<Pid, Phase> {
    map p | p in procs :: Seen(w, procs[p], fs.Phase(p))
  }

  ghost function Abs(c: Params, s: State): SP.State {
    SP.State(EntriesOf(c, FS.View(s.fs)), Phases(c.w, s.fs, s.procs))
  }

  /** A process inside Create works on the file of its next creation, with the body it was given. */
  ghost predicate PairOK(c: Params, fs: FS.State, ph: Phase, f: Job) {
    f.Idle? || (
      && CreationOf(c.w, ph).Some?
      && var n := CreationOf(c.w, ph).value;
      && c.fit(n.name) && f.job == FS.Job(c.path(n.name), n.size, n.dgst)
      && (f.Filling? ==> f.stream <= n.body)
      && (f.Linking? ==> FS.Body(fs, f) == n.body))
  }

  ghost predicate Inv(c: Params, s: State) {
    Distinct(c) && FS.Inv(c.w.hash, s.fs) && forall p: Pid :: PairOK(c, s.fs, s.Phase(p), s.fs.Phase(p))
  }

  lemma AbsPhase(c: Params, s: State, p: Pid)
    requires Inv(c, s)
    ensures Abs(c, s).Phase(p) == Seen(c.w, s.Phase(p), s.fs.Phase(p))
  {
    assert PairOK(c, s.fs, s.Phase(p), s.fs.Phase(p));
  }

  // ---------------------------------------------------------------------------------------------
  // Steps of the files

  /** A step of another process leaves the file being linked as it is. */
  lemma OthersKeepBody(hash: Hash, fs: FS.State, p: Pid, e: FS.Event, q: Pid)
    requires FS.Inv(hash, fs) && FS.Step(hash, fs, p, e).Some? && q != p
    ensures var fs' := FS.Step(hash, fs, p, e).value;
      fs'.Phase(q) == fs.Phase(q) && (fs.Phase(q).Linking? ==> FS.Body(fs', fs.Phase(q)) == FS.Body(fs, fs.Phase(q)))
  {
    FS.StepKeepsOthers(hash, fs, p, e, q);
    assert FS.PhaseOK(hash, fs, fs.Phase(p)) && FS.PhaseOK(hash, fs, fs.Phase(q));
  }

  /** The file's own process: the stream stays a prefix, and what is linked is the whole body. */
  lemma OwnKeepsBody(hash: Hash, fs: FS.State, p: Pid, e: FS.Event, body: Bytes)
    requires FS.Inv(hash, fs) && FS.Step(hash, fs, p, e).Some? && !fs.Phase(p).Idle? && Honours(body, fs.Phase(p), e)
    requires fs.Phase(p).Filling? ==> fs.Phase(p).stream <= body
    requires fs.Phase(p).Linking? ==> FS.Body(fs, fs.Phase(p)) == body
    ensures var fs' := FS.Step(hash, fs, p, e).value; var f := fs'.Phase(p);
      && !f.Idle? && f.job == fs.Phase(p).job
      && (f.Filling? ==> f.stream <= body) && (f.Linking? ==> FS.Body(fs', f) == body)
  {
    assert FS.PhaseOK(hash, fs, fs.Phase(p));
  }

  lemma FilesKeepInv(c: Params, s: State, p: Pid, e: FS.Event)
    requires Inv(c, s) && FS.Step(c.w.hash, s.fs, p, e).Some?
    requires PairOK(c, FS.Step(c.w.hash, s.fs, p, e).value, s.Phase(p), FS.Step(c.w.hash, s.fs, p, e).value.Phase(p))
    ensures Inv(c, OnFiles(c, s, p, e).value)
  {
    var s' := OnFiles(c, s, p, e).value;
    FS.StepKeepsInv(c.w.hash, s.fs, p, e);
    forall q: Pid ensures PairOK(c, s'.fs, s'.Phase(q), s'.fs.Phase(q)) {
      if q != p {
        assert PairOK(c, s.fs, s.Phase(q), s.fs.Phase(q));
        OthersKeepBody(c.w.hash, s.fs, p, e, q);
      }
    }
  }

  /** A process gives up its file: a crash, as far as the files are concerned. */
  lemma GoIdleKeepsInv(c: Params, s: State, p: Pid, ph: Phase)
    requires Inv(c, s)
    ensures Inv(c, State(s.fs.Go(p, FS.Idle), s.procs[p := ph])) && FS.View(s.fs.Go(p, FS.Idle)) == FS.View(s.fs)
  {
    assert FS.Step(c.w.hash, s.fs, p, FS.Crash) == Some(s.fs.Go(p, FS.Idle));
    FilesKeepInv(c, s, p, FS.Crash);
    var s' := State(s.fs.Go(p, FS.Idle), s.procs[p := ph]);
    forall q: Pid ensures PairOK(c, s'.fs, s'.Phase(q), s'.fs.Phase(q)) {
      assert PairOK(c, s'.fs, s.Phase(q), s'.fs.Phase(q));
    }
  }

  // ---------------------------------------------------------------------------------------------
  // Each step is a step of the store, or none

  ghost predicate Simulates(w: World, a: SP.State, a': SP.State, p: Pid) {
    a' == a || exists e :: SP.Step(w, a, p, e) == Some(a')
  }

  /** When one process moves, its phase is all that changes of the processes. */
  lemma PhasesMove(w: World, fs: FS.State, procs: map<Pid, Phase>, fs': FS.State, procs': map<Pid, Phase>, p: Pid)
    requires p in procs' && procs' == procs[p := procs'[p]]
    requires forall q: Pid | q != p :: fs'.Phase(q) == fs.Phase(q)
    ensures Phases(w, fs', procs') == Phases(w, fs, procs)[p := Seen(w, procs'[p], fs'.Phase(p))]
  {
  }

  lemma OverIsIdle(c: Params, s: State, p: Pid)
    requires Inv(c, s) && CreationOf(c.w, s.Phase(p)).None?
    ensures s.fs.Phase(p).Idle?
  {
    assert PairOK(c, s.fs, s.Phase(p), s.fs.Phase(p));
  }

  /** Steps that touch no file. */
  lemma MemoryKeepsInv(c: Params, s: State, p: Pid, ph: Phase)
    requires Inv(c, s) && s.fs.Phase(p).Idle?
    ensures Inv(c, s.(procs := s.procs[p := ph]))
    ensures Abs(c, s.(procs := s.procs[p := ph])) == Abs(c, s).(procs := Abs(c, s).procs[p := ph])
  {
    var s' := s.(procs := s.procs[p := ph]);
    forall q: Pid ensures PairOK(c, s'.fs, s'.Phase(q), s'.fs.Phase(q)) {
      assert PairOK(c, s.fs, s.Phase(q), s.fs.Phase(q));
    }
    PhasesMove(c.w, s.fs, s.procs, s'.fs, s'.procs, p);
  }

  /** What the store's own steps look like. */
  lemma StoreSteps(w: World, a: SP.State, p: Pid)
    ensures SP.Step(w, a, p, SP.Crash) == Some(a.(procs := a.procs[p := SP.Idle]))
    ensures !a.Phase(p).Over() ==>
      && SP.Step(w, a, p, SP.CallFails) == Some(a.(procs := a.procs[p := SP.Failed(a.Phase(p))]))
      && SP.Step(w, a, p, SP.CallReturns)
        == Some(SP.State(SP.Call(w, a.entries, a.Phase(p)).0, a.procs[p := SP.Call(w, a.entries, a.Phase(p)).1]))
  {
  }

  lemma SimulatedBy(w: World, a: SP.State, a': SP.State, p: Pid, e: SP.Event)
    requires SP.Step(w, a, p, e) == Some(a')
    ensures Simulates(w, a, a', p)
  {
  }

  lemma BeginSimulates(c: Params, s: State, p: Pid, call: SP.Event)
    requires Inv(c, s) && Step(c, s, p, Begin(call)).Some?
    ensures var s' := Step(c, s, p, Begin(call)).value; Inv(c, s') && Simulates(c.w, Abs(c, s), Abs(c, s'), p)
  {
    var ph := if call.BeginCommit? then SP.StartCommit(call.job) else SP.StartPut(call.desc, call.body);
    OverIsIdle(c, s, p);
    AbsPhase(c, s, p);
    MemoryKeepsInv(c, s, p, ph);
    assert SP.Step(c.w, Abs(c, s), p, call) == Some(Abs(c, s.(procs := s.procs[p := ph])));
  }

  lemma ReadSimulates(c: Params, s: State, p: Pid, fails: bool)
    requires Inv(c, s) && Step(c, s, p, Read(fails)).Some?
    ensures var s' := Step(c, s, p, Read(fails)).value; Inv(c, s') && Simulates(c.w, Abs(c, s), Abs(c, s'), p)
  {
    var es, ph := EntriesOf(c, FS.View(s.fs)), s.Phase(p);
    var ph' := if fails then SP.Failed(ph) else SP.Call(c.w, es, ph).1;
    OverIsIdle(c, s, p);
    AbsPhase(c, s, p);
    NothingCreated(c.w, es, ph);
    MemoryKeepsInv(c, s, p, ph');
    StoreSteps(c.w, Abs(c, s), p);
    var s' := s.(procs := s.procs[p := ph']);
    SimulatedBy(c.w, Abs(c, s), Abs(c, s'), p, if fails then SP.CallFails else SP.CallReturns);
  }

  lemma NothingCreated(w: World, es: SP.Entries, ph: Phase)
    requires CreationOf(w, ph).None?
    ensures SP.Call(w, es, ph).0 == es
  {
    CallCreates(w, es, ph);
  }

  lemma CrashSimulates(c: Params, s: State, p: Pid)
    requires Inv(c, s)
    ensures var s' := Step(c, s, p, Crash).value; Inv(c, s') && Simulates(c.w, Abs(c, s), Abs(c, s'), p)
  {
    var s' := Step(c, s, p, Crash).value;
    GoIdleKeepsInv(c, s, p, SP.Idle);
    PhasesMove(c.w, s.fs, s.procs, s'.fs, s'.procs, p);
    StoreSteps(c.w, Abs(c, s), p);
    SimulatedBy(c.w, Abs(c, s), Abs(c, s'), p, SP.Crash);
  }

  /** The answer was seen when it was decided; an answer that Create broke off is a failed call. */
  lemma AnswerSimulates(c: Params, s: State, p: Pid)
    requires Inv(c, s) && Step(c, s, p, Answer).Some?
    ensures var s' := Step(c, s, p, Answer).value; Inv(c, s') && Simulates(c.w, Abs(c, s), Abs(c, s'), p)
  {
    AnswerMoves(c, s, p);
    AnswerIsKnown(c.w, Abs(c, s), Abs(c, Step(c, s, p, Answer).value), p, s.Phase(p), s.fs.Phase(p));
  }

  lemma AnswerIsKnown(w: World, a: SP.State, a': SP.State, p: Pid, ph: Phase, f: Job)
    requires f.Returned? && p in a.procs && a.procs[p] == Seen(w, ph, f) && !ph.Over()
    requires a' == a.(procs := a.procs[p := Answered(w, ph, f.outcome)])
    ensures Simulates(w, a, a', p)
  {
    if f.outcome.Broke? {
      StoreSteps(w, a, p);
      SimulatedBy(w, a, a', p, SP.CallFails);
    } else {
      KeepsProc(a.procs, p);
    }
  }

  lemma AnswerMoves(c: Params, s: State, p: Pid)
    requires Inv(c, s) && Step(c, s, p, Answer).Some?
    ensures var s', a := Step(c, s, p, Answer).value, Answered(c.w, s.Phase(p), s.fs.Phase(p).outcome);
      && Inv(c, s') && !s.Phase(p).Over()
      && p in Abs(c, s).procs && Abs(c, s).procs[p] == Seen(c.w, s.Phase(p), s.fs.Phase(p))
      && Abs(c, s') == Abs(c, s).(procs := Abs(c, s).procs[p := a])
  {
    var s' := Step(c, s, p, Answer).value;
    assert PairOK(c, s.fs, s.Phase(p), s.fs.Phase(p));
    GoIdleKeepsInv(c, s, p, Answered(c.w, s.Phase(p), s.fs.Phase(p).outcome));
    PhasesMove(c.w, s.fs, s.procs, s'.fs, s'.procs, p);
  }

  /** A system call, as the store sees it. */
  lemma FileMoves(c: Params, s: State, p: Pid, e: FS.Event)
    requires FS.Step(c.w.hash, s.fs, p, e).Some? && p in s.procs
    ensures var fs := FS.Step(c.w.hash, s.fs, p, e).value;
      Abs(c, OnFiles(c, s, p, e).value) ==
        SP.State(EntriesOf(c, FS.View(fs)), Abs(c, s).procs[p := Seen(c.w, s.procs[p], fs.Phase(p))])
  {
    OthersStay(c.w.hash, s.fs, p, e);
    KeepsProc(s.procs, p);
    PhasesMove(c.w, s.fs, s.procs, FS.Step(c.w.hash, s.fs, p, e).value, s.procs, p);
  }

  /** A system call that decides nothing: the store does not notice. */
  lemma QuietFile(c: Params, s: State, p: Pid, e: FS.Event)
    requires Inv(c, s) && FS.Step(c.w.hash, s.fs, p, e).Some? && CreationOf(c.w, s.Phase(p)).Some?
    requires var fs := FS.Step(c.w.hash, s.fs, p, e).value;
      FS.View(fs) == FS.View(s.fs) && Seen(c.w, s.Phase(p), fs.Phase(p)) == Seen(c.w, s.Phase(p), s.fs.Phase(p))
    ensures Abs(c, OnFiles(c, s, p, e).value) == Abs(c, s)
  {
    FileMoves(c, s, p, e);
    KeepsProc(Abs(c, s).procs, p);
  }

  lemma OthersStay(hash: Hash, fs: FS.State, p: Pid, e: FS.Event)
    requires FS.Step(hash, fs, p, e).Some?
    ensures forall q: Pid | q != p :: FS.Step(hash, fs, p, e).value.Phase(q) == fs.Phase(q)
  {
  }

  /** The system call at which a creation takes effect or finds its name: the store's call, all at once. */
  lemma DecidingFile(c: Params, s: State, p: Pid, e: FS.Event, created: Created)
    requires Inv(c, s) && FS.Step(c.w.hash, s.fs, p, e).Some? && CreationOf(c.w, s.Phase(p)).Some?
    requires !s.fs.Phase(p).Removing? && !s.fs.Phase(p).Returned?
    requires var n, fs := CreationOf(c.w, s.Phase(p)).value, FS.Step(c.w.hash, s.fs, p, e).value;
      && SP.Create(c.w, EntriesOf(c, FS.View(s.fs)), n.name, n.body, n.size, n.dgst)
        == (EntriesOf(c, FS.View(fs)), created)
      && Seen(c.w, s.Phase(p), fs.Phase(p)) == After(c.w, s.Phase(p), created)
    ensures SP.Step(c.w, Abs(c, s), p, SP.CallReturns) == Some(Abs(c, OnFiles(c, s, p, e).value))
  {
    AbsPhase(c, s, p);
    FileMoves(c, s, p, e);
    CreateReturns(c.w, Abs(c, s), p, EntriesOf(c, FS.View(FS.Step(c.w.hash, s.fs, p, e).value)), created);
  }

  lemma CreateReturns(w: World, a: SP.State, p: Pid, later: SP.Entries, created: Created)
    requires CreationOf(w, a.Phase(p)).Some?
    requires var n := CreationOf(w, a.Phase(p)).value;
      SP.Create(w, a.entries, n.name, n.body, n.size, n.dgst) == (later, created)
    ensures SP.Step(w, a, p, SP.CallReturns) == Some(SP.State(later, a.procs[p := After(w, a.Phase(p), created)]))
  {
    StoreSteps(w, a, p);
    CallCreates(w, a.entries, a.Phase(p));
  }

  lemma KeepsProc(procs: map<Pid, Phase>, p: Pid)
    requires p in procs
    ensures procs[p := procs[p]] == procs
  {
  }

  /** The link that makes the entry visible. */
  lemma WinSimulates(c: Params, s: State, p: Pid)
    requires Inv(c, s) && s.fs.Phase(p).Linking? && s.fs.Phase(p).job.name !in s.fs.dir
    ensures SP.Step(c.w, Abs(c, s), p, SP.CallReturns) == Some(Abs(c, OnFiles(c, s, p, FS.Link(true)).value))
  {
    var f := s.fs.Phase(p);
    assert PairOK(c, s.fs, s.Phase(p), f) && FS.PhaseOK(c.w.hash, s.fs, f);
    var n := CreationOf(c.w, s.Phase(p)).value;
    FS.LinkRefinesCreate(c.w.hash, s.fs, p);
    EntriesGrow(c, FS.View(s.fs), n.name, n.body);
    EntriesAre(c, FS.View(s.fs), n.name);
    DecidingFile(c, s, p, FS.Link(true), Fresh);
  }

  /** A link or a look that finds the name taken. */
  lemma ExistsSimulates(c: Params, s: State, p: Pid, e: FS.Event)
    requires Inv(c, s) && !s.fs.Phase(p).Idle? && s.fs.Phase(p).job.name in s.fs.dir
    requires FS.Step(c.w.hash, s.fs, p, e).Some?
    requires (e.Link? && s.fs.Phase(p).Linking?) || (e.Lstat? && s.fs.Phase(p).Looking?)
    ensures SP.Step(c.w, Abs(c, s), p, SP.CallReturns) == Some(Abs(c, OnFiles(c, s, p, e).value))
  {
    var f := s.fs.Phase(p);
    assert PairOK(c, s.fs, s.Phase(p), f) && FS.PhaseOK(c.w.hash, s.fs, f);
    FS.OthersStutter(c.w.hash, s.fs, p, e);
    EntriesAre(c, FS.View(s.fs), CreationOf(c.w, s.Phase(p)).value.name);
    DecidingFile(c, s, p, e, Exists);
  }

  lemma FileSimulates(c: Params, s: State, p: Pid, e: FS.Event)
    requires Inv(c, s) && Step(c, s, p, File(e)).Some?
    ensures var s' := Step(c, s, p, File(e)).value; Inv(c, s') && Simulates(c.w, Abs(c, s), Abs(c, s'), p)
  {
    var f, n := s.fs.Phase(p), CreationOf(c.w, s.Phase(p)).value;
    assert PairOK(c, s.fs, s.Phase(p), f);
    OwnKeepsBody(c.w.hash, s.fs, p, e, n.body);
    FilesKeepInv(c, s, p, e);
    if f.Linking? && f.job.name !in s.fs.dir && e == FS.Link(true) {
      WinSimulates(c, s, p);
    } else if f.job.name in s.fs.dir && ((e.Link? && f.Linking?) || (e.Lstat? && f.Looking?)) {
      ExistsSimulates(c, s, p, e);
    } else {
      FS.OthersStutter(c.w.hash, s.fs, p, e);
      QuietFile(c, s, p, e);
    }
  }

  lemma AskSimulates(c: Params, s: State, p: Pid)
    requires Inv(c, s) && Step(c, s, p, Ask).Some?
    ensures var s' := Step(c, s, p, Ask).value; Inv(c, s') && Simulates(c.w, Abs(c, s), Abs(c, s'), p)
  {
    var n := CreationOf(c.w, s.Phase(p)).value;
    var e := FS.Begin(FS.Job(c.path(n.name), n.size, n.dgst));
    FilesKeepInv(c, s, p, e);
    FS.OthersStutter(c.w.hash, s.fs, p, e);
    QuietFile(c, s, p, e);
  }

  /** Every step of the store on files is one step of the store, or none. */
  lemma StepSimulates(c: Params, s: State, p: Pid, e: Event)
    requires Inv(c, s) && Step(c, s, p, e).Some?
    ensures var s' := Step(c, s, p, e).value; Inv(c, s') && Simulates(c.w, Abs(c, s), Abs(c, s'), p)
  {
    match e
    case Begin(call) => BeginSimulates(c, s, p, call);
    case Read(fails) => ReadSimulates(c, s, p, fails);
    case Ask => AskSimulates(c, s, p);
    case File(sys) => FileSimulates(c, s, p, sys);
    case Answer => AnswerSimulates(c, s, p);
    case Crash => CrashSimulates(c, s, p);
  }

  // ---------------------------------------------------------------------------------------------
  // Runs

  /** A directory with any files but those of entries, and no process yet. */
  ghost predicate Starts(c: Params, s: State) {
    Distinct(c) && FS.Init(s.fs) && s.procs == map[] && EntriesOf(c, FS.View(s.fs)) == map[]
  }

  lemma {:induction false} RunSimulates(c: Params, s: State, run: seq<(Pid, Event)>)
    returns (calls: seq<(Pid, SP.Event)>)
    requires Inv(c, s) && Exec(c, s, run).Some?
    ensures Inv(c, Exec(c, s, run).value)
    ensures SP.Exec(c.w, Abs(c, s), calls) == Some(Abs(c, Exec(c, s, run).value))
    decreases |run|
  {
    if run == [] {
      calls := [];
    } else {
      var p, s' := run[0].0, Step(c, s, run[0].0, run[0].1).value;
      StepSimulates(c, s, p, run[0].1);
      calls := RunSimulates(c, s', run[1..]);
      if Abs(c, s') != Abs(c, s) {
        var e :| SP.Step(c.w, Abs(c, s), p, e) == Some(Abs(c, s'));
        var rest := calls;
        calls := [(p, e)] + rest;
        assert calls[1..] == rest;
      }
    }
  }

  /** What a directory holds at any moment is a reachable state of the store over an atomic backend. */
  lemma FilesAreAStore(c: Params, s: State, run: seq<(Pid, Event)>)
    requires Starts(c, s) && Exec(c, s, run).Some?
    ensures SS.Reachable(c.w, Abs(c, Exec(c, s, run).value))
  {
    StartIsOK(c, s);
    StartIsNothing(c, s);
    var calls := RunSimulates(c, s, run);
  }

  lemma StartIsNothing(c: Params, s: State)
    requires Starts(c, s)
    ensures Abs(c, s) == SS.NOTHING
  {
    NoPhases(c.w, s.fs);
  }

  lemma StartIsOK(c: Params, s: State)
    requires Starts(c, s)
    ensures Inv(c, s)
  {
    FS.InitEstablishes(c.w.hash, s.fs);
    forall p: Pid ensures s.fs.Phase(p).Idle? {
    }
  }

  lemma NoPhases(w: World, fs: FS.State)
    ensures Phases(w, fs, map[]) == map[]
  {
  }

  lemma EntryHasFile(c: Params, view: map<FS.Path, Bytes>, n: SP.Name)
    requires Distinct(c) && n in EntriesOf(c, view)
    ensures c.fit(n) && c.path(n) in view && EntriesOf(c, view)[n] == view[c.path(n)]
  {
    EntriesAre(c, view, n);
  }

  /**
   * Closure, file by file: whenever the index.json of a leaf is visible, so are its manifest, config and
   * layers, each with bytes that hash to its digest, its layout file and its markers with the right
   * contents. Creators may be at work or have crashed anywhere.
   */
  lemma LeafFilesAreClosed(c: Params, s: State, run: seq<(Pid, Event)>, leaf: SP.Leaf)
    returns (job: SP.Job, m: Manifest, cfg: Config)
    requires IndexRoundTrip(c.w) && Starts(c, s) && Exec(c, s, run).Some? && c.fit(SP.IndexEntry(leaf))
    requires c.path(SP.IndexEntry(leaf)) in FS.View(Exec(c, s, run).value.fs)
    ensures job.Leaf() == leaf && IsManifest(job.manifest.mediaType) && |cfg.diffIDs| == |m.layers|
    ensures var view := FS.View(Exec(c, s, run).value.fs);
      && c.path(SP.LayoutEntry(leaf)) in view && view[c.path(SP.LayoutEntry(leaf))] == c.w.layout
      && view[c.path(SP.IndexEntry(leaf))] == c.w.encodeIndex(job.ref, job.platform, job.manifest)
      && BlobFile(c, view, job.manifest.digest)
      && c.w.manifest(view[c.path(SP.BlobEntry(job.manifest.digest))]) == Some(m)
      && BlobFile(c, view, m.config.digest) && c.w.config(view[c.path(SP.BlobEntry(m.config.digest))]) == Some(cfg)
      && forall i | 0 <= i < |m.layers| ::
        BlobFile(c, view, m.layers[i].digest) && MarkerFile(c, view, cfg.diffIDs[i], m.layers[i].digest)
  {
    FilesAreAStore(c, s, run);
    var view := FS.View(Exec(c, s, run).value.fs);
    EntriesAre(c, view, SP.IndexEntry(leaf));
    job, m, cfg := SS.LeavesAreClosed(c.w, Abs(c, Exec(c, s, run).value), leaf);
    forall n | n in EntriesOf(c, view) ensures c.path(n) in view && EntriesOf(c, view)[n] == view[c.path(n)] {
      EntryHasFile(c, view, n);
    }
  }

  /** The marker's file is visible and holds an empty JSON object. */
  ghost predicate MarkerFile(c: Params, view: map<FS.Path, Bytes>, a: Digest, b: Digest) {
    c.path(SP.MarkerEntry(a, b)) in view && view[c.path(SP.MarkerEntry(a, b))] == [123, 125]
  }

  /** The blob's file is visible and holds bytes of that digest. */
  ghost predicate BlobFile(c: Params, view: map<FS.Path, Bytes>, d: Digest) {
    c.path(SP.BlobEntry(d)) in view && c.w.hash(view[c.path(SP.BlobEntry(d))]) == d
  }

  // ---------------------------------------------------------------------------------------------
  // The store's own tree

  /** Directory and base name of an entry. */
  function FileOf(n: SP.Name): FS.Path {
    var parts := Split(EntryPath(n));
    FS.Path(JoinParts(parts[..|parts| - 1]), parts[|parts| - 1])
  }

  lemma FileOfParts(n: SP.Name)
    requires WellFormedName(n)
    ensures Split(EntryPath(n)) == EntryParts(n) && |EntryParts(n)| > 1
    ensures EntryPath(n) == FileOf(n).dir + "/" + FileOf(n).base && !FileOf(n).IsTemp()
  {
    EntrySplits(n);
    var parts := EntryParts(n);
    var k := |parts| - 1;
    JoinSplit(EntryPath(n));
    assert parts == parts[..k] + [parts[k]];
    JoinConcat(parts[..k], [parts[k]]);
    assert parts[k] == match n
      case BlobEntry(d) => d.encoded
      case MarkerEntry(_, b) => b.encoded
      case LayoutEntry(_) => "oci-layout"
      case IndexEntry(_) => "index.json";
    assert parts[k][0] != '.';
  }

  /** Well-formed names of the tree have files of their own, none of them temporary. */
  lemma TreeIsDistinct(w: World)
    ensures Distinct(Params(w, FileOf, n => WellFormedName(n)))
  {
    forall a, b | WellFormedName(a) && WellFormedName(b) && FileOf(a) == FileOf(b) ensures a == b {
      FileOfParts(a);
      FileOfParts(b);
      EntryPathInjective(a, b);
    }
    forall n | WellFormedName(n) ensures !FileOf(n).IsTemp() {
      FileOfParts(n);
    }
  }
}
