/**
 * Create over a file system: look, write a temporary file beside the name, verify, hard-link, remove
 * the temporary file. Concurrent creators and crashes included, it refines create-if-absent.
 */
module FsDir {
  import opened Content
  import opened ImageModel

  type Pid = nat
  type Ino = nat

  datatype Path = Path(dir: string, base: string) {
    /** Names List skips. */
    predicate IsTemp() {
      ".tmp-" <= base
    }
  }

  function TempOf(name: Path, suffix: string): Path {
    Path(name.dir, ".tmp-" + name.base + "-" + suffix)
  }

  lemma TempIsTemp(name: Path, suffix: string)
    ensures TempOf(name, suffix).IsTemp()
  {
    assert TempOf(name, suffix).base[..5] == ".tmp-";
  }

  datatype Job = Job(name: Path, size: int, dgst: Option<Digest>)

  datatype Outcome = Won | Existed | Broke

  datatype Phase =
    | Idle
    | Looking(job: Job)
    | Opening(job: Job)
    | Filling(job: Job, tmp: Path, ino: Ino, stream: Bytes)
    | Linking(job: Job, tmp: Path, ino: Ino)
    | Removing(job: Job, tmp: Path, outcome: Outcome)
    | Returned(job: Job, outcome: Outcome)
  {
    predicate HasTemp() {
      Filling? || Linking? || Removing?
    }
  }

  datatype State = State(files: map<Ino, Bytes>, dir: map<Path, Ino>, procs: map<Pid, Phase>) {
    function Phase(p: Pid): Phase {
      if p in procs then procs[p] else Idle
    }

    function Go(p: Pid, ph: Phase): State {
      this.(procs := procs[p := ph])
    }
  }

  datatype Event =
    | Begin(job: Job)
    | Lstat
    | OpenTemp(suffix: string, node: Ino)
    | Write(data: Bytes)
    | Spoil(data: Bytes)   // a write or the reader fails, leaving some bytes
    | Verify
    | Link(works: bool)
    | Remove(works: bool)
    | Fail
    | Crash

  function Step(hash: Hash, s: State, p: Pid, e: Event): Option<State> {
    var ph := s.Phase(p);
    match e
    case Begin(job) =>
      if (ph.Idle? || ph.Returned?) && !job.name.IsTemp() then Some(s.Go(p, Looking(job))) else None
    case Lstat =>
      if !ph.Looking? then None
      else Some(s.Go(p, if ph.job.name in s.dir then Returned(ph.job, Existed) else Opening(ph.job)))
    case OpenTemp(suffix, node) =>
      if !ph.Opening? then None
      else
        var tmp := TempOf(ph.job.name, suffix);
        if tmp in s.dir then Some(s.Go(p, Returned(ph.job, Broke)))
        else if node in s.files then None
        else
          Some(State(s.files[node := []], s.dir[tmp := node], s.procs[p := Filling(ph.job, tmp, node, [])]))
    case Write(data) =>
      if !ph.Filling? || ph.ino !in s.files then None
      else
        Some(s.(files := s.files[ph.ino := WriteAt(s.files[ph.ino], |ph.stream|, data)])
              .Go(p, Filling(ph.job, ph.tmp, ph.ino, ph.stream + data)))
    case Spoil(data) =>
      if !ph.Filling? || ph.ino !in s.files then None
      else
        Some(s.(files := s.files[ph.ino := WriteAt(s.files[ph.ino], |ph.stream|, data)])
              .Go(p, Removing(ph.job, ph.tmp, Broke)))
    case Verify =>
      if !ph.Filling? then None
      else if Verifies(hash, ph.stream, ph.job.size, ph.job.dgst) then Some(s.Go(p, Linking(ph.job, ph.tmp, ph.ino)))
      else Some(s.Go(p, Removing(ph.job, ph.tmp, Broke)))
    case Link(works) =>
      if !ph.Linking? || ph.tmp !in s.dir then None
      else if ph.job.name in s.dir then Some(s.Go(p, Removing(ph.job, ph.tmp, Existed)))
      else if !works then Some(s.Go(p, Removing(ph.job, ph.tmp, Broke)))
      else Some(s.(dir := s.dir[ph.job.name := s.dir[ph.tmp]]).Go(p, Removing(ph.job, ph.tmp, Won)))
    case Remove(works) =>
      if !ph.Removing? then None
      else Some((if works then s.(dir := s.dir - {ph.tmp}) else s).Go(p, Returned(ph.job, ph.outcome)))
    case Fail =>
      if ph.Looking? || ph.Opening? then Some(s.Go(p, Returned(ph.job, Broke)))
      else if ph.Filling? || ph.Linking? then Some(s.Go(p, Removing(ph.job, ph.tmp, Broke)))
      else None
    case Crash => Some(s.Go(p, Idle))
  }

  function Exec(hash: Hash, s: State, run: seq<(Pid, Event)>): Option<State>
    decreases |run|
  {
    if run == [] then Some(s)
    else
      match Step(hash, s, run[0].0, run[0].1)
      case None => None
      case Some(s') => Exec(hash, s', run[1..])
  }

  /** What List yields: the regular files that are not temporary. */
  function List(s: State): set<Path> {
    set n | n in s.dir && !n.IsTemp()
  }

  /** The logical entries: what Open and List see. */
  function View(s: State): map<Path, Bytes> {
    map n | n in s.dir && !n.IsTemp() && s.dir[n] in s.files :: s.files[s.dir[n]]
  }

  // ---------------------------------------------------------------------------------------------
  // Invariant

  ghost predicate FilesOK(s: State) {
    forall n | n in s.dir :: s.dir[n] in s.files
  }

  /** A file being filled or linked has its temporary name only and holds exactly the stream. */
  ghost predicate PhaseOK(hash: Hash, s: State, ph: Phase) {
    && (!ph.Idle? ==> !ph.job.name.IsTemp())
    && (ph.HasTemp() ==> ph.tmp.IsTemp() && ph.tmp in s.dir)
    && (ph.Filling? || ph.Linking? ==>
      && s.dir[ph.tmp] == ph.ino
      && ph.ino in s.files
      && (forall n | n in s.dir && s.dir[n] == ph.ino :: n == ph.tmp))
    && (ph.Filling? ==> s.files[ph.ino] == ph.stream)
    && (ph.Linking? ==> Verifies(hash, s.files[ph.ino], ph.job.size, ph.job.dgst))
  }

  ghost predicate TempsOK(s: State) {
    forall p: Pid, q: Pid | s.Phase(p).HasTemp() && s.Phase(q).HasTemp() && s.Phase(p).tmp == s.Phase(q).tmp :: p == q
  }

  ghost predicate Inv(hash: Hash, s: State) {
    FilesOK(s) && TempsOK(s) && forall p: Pid :: PhaseOK(hash, s, s.Phase(p))
  }

  /** Any files at all, and no process. */
  ghost predicate Init(s: State) {
    FilesOK(s) && s.procs == map[]
  }

  lemma InitEstablishes(hash: Hash, s: State)
    requires Init(s)
    ensures Inv(hash, s)
  {
  }

  lemma StepKeepsOwn(hash: Hash, s: State, p: Pid, e: Event)
    requires Inv(hash, s) && Step(hash, s, p, e).Some?
    ensures var s' := Step(hash, s, p, e).value; FilesOK(s') && PhaseOK(hash, s', s'.Phase(p))
  {
    assert PhaseOK(hash, s, s.Phase(p));
    if e.OpenTemp? && s.Phase(p).Opening? {
      TempIsTemp(s.Phase(p).job.name, e.suffix);
    }
  }

  lemma StepKeepsOthers(hash: Hash, s: State, p: Pid, e: Event, q: Pid)
    requires Inv(hash, s) && Step(hash, s, p, e).Some? && q != p
    ensures var s' := Step(hash, s, p, e).value; s'.Phase(q) == s.Phase(q) && PhaseOK(hash, s', s.Phase(q))
  {
    assert PhaseOK(hash, s, s.Phase(p)) && PhaseOK(hash, s, s.Phase(q));
  }

  lemma StepKeepsTemps(hash: Hash, s: State, p: Pid, e: Event)
    requires Inv(hash, s) && Step(hash, s, p, e).Some?
    ensures TempsOK(Step(hash, s, p, e).value)
  {
    var s' := Step(hash, s, p, e).value;
    forall q: Pid
      ensures q != p ==> s'.Phase(q) == s.Phase(q) && PhaseOK(hash, s, s.Phase(q))
    {
    }
  }

  lemma StepKeepsInv(hash: Hash, s: State, p: Pid, e: Event)
    requires Inv(hash, s) && Step(hash, s, p, e).Some?
    ensures Inv(hash, Step(hash, s, p, e).value)
  {
    var s' := Step(hash, s, p, e).value;
    StepKeepsOwn(hash, s, p, e);
    StepKeepsTemps(hash, s, p, e);
    forall q: Pid ensures PhaseOK(hash, s', s'.Phase(q)) {
      if q != p {
        StepKeepsOthers(hash, s, p, e, q);
      }
    }
  }

  lemma {:induction false} RunKeepsInv(hash: Hash, s: State, run: seq<(Pid, Event)>)
    requires Inv(hash, s) && Exec(hash, s, run).Some?
    ensures Inv(hash, Exec(hash, s, run).value)
    decreases |run|
  {
    if run != [] {
      StepKeepsInv(hash, s, run[0].0, run[0].1);
      RunKeepsInv(hash, Step(hash, s, run[0].0, run[0].1).value, run[1..]);
    }
  }

  // ---------------------------------------------------------------------------------------------
  // Refinement

  /** The body a process is about to make visible. */
  function Body(s: State, ph: Phase): Bytes {
    if ph.Linking? && ph.ino in s.files then s.files[ph.ino] else []
  }

  /**
   * Linking is the create-if-absent of the logical entries: same new entries, same answer. Finding
   * the name at lstat is the same operation answering that the name exists.
   */
  lemma LinkRefinesCreate(hash: Hash, s: State, p: Pid)
    requires Inv(hash, s) && s.Phase(p).Linking?
    ensures var ph := s.Phase(p);
      && Step(hash, s, p, Link(true)).Some?
      && var s' := Step(hash, s, p, Link(true)).value;
      && s'.Phase(p).Removing?
      && (View(s'), if s'.Phase(p).outcome.Won? then Fresh else Exists)
        == CreateIfAbsent(hash, View(s), ph.job.name, Body(s, ph), ph.job.size, ph.job.dgst)
      && s'.Phase(p).outcome != Broke
  {
    var ph := s.Phase(p);
    assert PhaseOK(hash, s, ph);
    var s' := Step(hash, s, p, Link(true)).value;
    if ph.job.name !in s.dir {
      assert View(s') == View(s)[ph.job.name := s.files[ph.ino]];
    }
  }

  lemma LstatRefinesCreate(hash: Hash, s: State, p: Pid, body: Bytes)
    requires Inv(hash, s) && s.Phase(p).Looking?
    requires Step(hash, s, p, Lstat).Some? && Step(hash, s, p, Lstat).value.Phase(p).Returned?
    ensures var job := s.Phase(p).job;
      && Step(hash, s, p, Lstat).value.Phase(p).outcome == Existed
      && CreateIfAbsent(hash, View(s), job.name, body, job.size, job.dgst) == (View(s), Exists)
  {
    assert PhaseOK(hash, s, s.Phase(p));
  }

  /** Every other step, of any process, leaves the logical entries as they are. */
  lemma OthersStutter(hash: Hash, s: State, p: Pid, e: Event)
    requires Inv(hash, s) && Step(hash, s, p, e).Some?
    requires !(e == Link(true) && s.Phase(p).Linking? && s.Phase(p).job.name !in s.dir)
    ensures View(Step(hash, s, p, e).value) == View(s)
  {
    assert PhaseOK(hash, s, s.Phase(p));
    if e.OpenTemp? && s.Phase(p).Opening? {
      TempIsTemp(s.Phase(p).job.name, e.suffix);
    }
  }

  /** The same store as a create-if-absent map: each step does nothing or creates one verified entry. */
  ghost predicate AbstractStep(hash: Hash, es: map<Path, Bytes>, es': map<Path, Bytes>) {
    es' == es || exists job: Job, body :: CreatesFresh(hash, es, es', job, body)
  }

  ghost predicate CreatesFresh(hash: Hash, es: map<Path, Bytes>, es': map<Path, Bytes>, job: Job, body: Bytes) {
    CreateIfAbsent(hash, es, job.name, body, job.size, job.dgst) == (es', Fresh)
  }

  lemma StepRefines(hash: Hash, s: State, p: Pid, e: Event)
    requires Inv(hash, s) && Step(hash, s, p, e).Some?
    ensures AbstractStep(hash, View(s), View(Step(hash, s, p, e).value))
  {
    var ph := s.Phase(p);
    if e == Link(true) && ph.Linking? && ph.job.name !in s.dir {
      LinkRefinesCreate(hash, s, p);
      assert CreatesFresh(hash, View(s), View(Step(hash, s, p, e).value), ph.job, Body(s, ph));
    } else {
      OthersStutter(hash, s, p, e);
    }
  }

  /** Visible content never changes and never goes away. */
  lemma {:induction false} VisibleForever(hash: Hash, s: State, run: seq<(Pid, Event)>, n: Path)
    requires Inv(hash, s) && Exec(hash, s, run).Some? && n in View(s)
    ensures var s' := Exec(hash, s, run).value; n in View(s') && View(s')[n] == View(s)[n]
    decreases |run|
  {
    if run != [] {
      StepRefines(hash, s, run[0].0, run[0].1);
      StepKeepsInv(hash, s, run[0].0, run[0].1);
      VisibleForever(hash, Step(hash, s, run[0].0, run[0].1).value, run[1..], n);
    }
  }

  /** 1 when this event makes `n` visible for the process that takes it. */
  function WinStep(hash: Hash, s: State, n: Path, e: (Pid, Event)): nat {
    match Step(hash, s, e.0, e.1)
    case None => 0
    case Some(s') =>
      if !s.Phase(e.0).Removing? && s'.Phase(e.0).Removing? && s'.Phase(e.0).outcome.Won?
        && s'.Phase(e.0).job.name == n then 1
      else 0
  }

  function Wins(hash: Hash, s: State, run: seq<(Pid, Event)>, n: Path): nat
    decreases |run|
  {
    if run == [] then 0
    else
      match Step(hash, s, run[0].0, run[0].1)
      case None => 0
      case Some(s') => WinStep(hash, s, n, run[0]) + Wins(hash, s', run[1..], n)
  }

  function Seen(s: State, n: Path): nat {
    if n in View(s) then 1 else 0
  }

  lemma WinMakesVisible(hash: Hash, s: State, n: Path, e: (Pid, Event))
    requires Inv(hash, s) && Step(hash, s, e.0, e.1).Some?
    ensures Seen(s, n) + WinStep(hash, s, n, e) == Seen(Step(hash, s, e.0, e.1).value, n)
  {
    var ph, s' := s.Phase(e.0), Step(hash, s, e.0, e.1).value;
    assert PhaseOK(hash, s, ph);
    if e.1 == Link(true) && ph.Linking? && ph.job.name !in s.dir {
      LinkRefinesCreate(hash, s, e.0);
    } else {
      OthersStutter(hash, s, e.0, e.1);
    }
  }

  /** Exactly one creator wins a name that becomes visible, and none wins one that already was. */
  lemma {:induction false} OneCreatorWins(hash: Hash, s: State, run: seq<(Pid, Event)>, n: Path)
    requires Inv(hash, s) && Exec(hash, s, run).Some?
    ensures Seen(s, n) + Wins(hash, s, run, n) == Seen(Exec(hash, s, run).value, n)
    decreases |run|
  {
    if run != [] {
      WinMakesVisible(hash, s, n, run[0]);
      StepKeepsInv(hash, s, run[0].0, run[0].1);
      OneCreatorWins(hash, Step(hash, s, run[0].0, run[0].1).value, run[1..], n);
    }
  }

  // ---------------------------------------------------------------------------------------------
  // Where visible content comes from

  /** Event k of the run links the file of the process that takes it under `n`, for the job it was given. */
  ghost predicate LinkedAt(hash: Hash, s: State, run: seq<(Pid, Event)>, k: int, n: Path, job: Job) {
    && 0 <= k < |run| && run[k].1 == Link(true)
    && Exec(hash, s, run[..k]).Some?
    && var ph := Exec(hash, s, run[..k]).value.Phase(run[k].0);
      ph.Linking? && ph.job == job && job.name == n
  }

  lemma {:induction false} LinkedLater(
      hash: Hash, s: State, e: (Pid, Event), rest: seq<(Pid, Event)>, k: nat, n: Path, job: Job)
    requires Step(hash, s, e.0, e.1).Some?
    requires LinkedAt(hash, Step(hash, s, e.0, e.1).value, rest, k, n, job)
    ensures LinkedAt(hash, s, [e] + rest, k + 1, n, job)
  {
    assert ([e] + rest)[..k + 1] == [e] + rest[..k];
    assert ([e] + rest[..k])[1..] == rest[..k];
  }

  /** What became visible was linked by a process of the run and matches the job it worked on. */
  lemma {:induction false} VisibleWasLinked(hash: Hash, s: State, run: seq<(Pid, Event)>, n: Path)
    returns (k: nat, job: Job)
    requires Inv(hash, s) && Exec(hash, s, run).Some?
    requires n !in View(s) && n in View(Exec(hash, s, run).value)
    ensures LinkedAt(hash, s, run, k, n, job)
    ensures Verifies(hash, View(Exec(hash, s, run).value)[n], job.size, job.dgst)
    decreases |run|
  {
    var e, s' := run[0], Step(hash, s, run[0].0, run[0].1).value;
    StepKeepsInv(hash, s, e.0, e.1);
    if n in View(s') {
      job := LinkMadeVisible(hash, s, n, e);
      k := 0;
      assert run[..0] == [];
      VisibleForever(hash, s', run[1..], n);
    } else {
      k, job := VisibleWasLinked(hash, s', run[1..], n);
      LinkedLater(hash, s, e, run[1..], k, n, job);
      k := k + 1;
      assert [e] + run[1..] == run;
    }
  }

  lemma LinkMadeVisible(hash: Hash, s: State, n: Path, e: (Pid, Event)) returns (job: Job)
    requires Inv(hash, s) && Step(hash, s, e.0, e.1).Some?
    requires n !in View(s) && n in View(Step(hash, s, e.0, e.1).value)
    ensures e.1 == Link(true) && s.Phase(e.0).Linking? && s.Phase(e.0).job == job && job.name == n
    ensures Verifies(hash, View(Step(hash, s, e.0, e.1).value)[n], job.size, job.dgst)
  {
    var ph := s.Phase(e.0);
    assert PhaseOK(hash, s, ph);
    if !(e.1 == Link(true) && ph.Linking? && ph.job.name !in s.dir) {
      OthersStutter(hash, s, e.0, e.1);
    }
    LinkRefinesCreate(hash, s, e.0);
    job := ph.job;
  }

  /** From a state without processes, the job a process works on is one it was given in the run. */
  lemma {:induction false} JobWasBegun(hash: Hash, s: State, run: seq<(Pid, Event)>, p: Pid) returns (k: nat)
    requires Exec(hash, s, run).Some? && !Exec(hash, s, run).value.Phase(p).Idle?
    requires s.Phase(p).Idle? || s.Phase(p).job != Exec(hash, s, run).value.Phase(p).job
    ensures k < |run| && run[k] == (p, Begin(Exec(hash, s, run).value.Phase(p).job))
    decreases |run|
  {
    var job := Exec(hash, s, run).value.Phase(p).job;
    var s' := Step(hash, s, run[0].0, run[0].1).value;
    if !s'.Phase(p).Idle? && s'.Phase(p).job == job {
      k := 0;
    } else {
      k := JobWasBegun(hash, s', run[1..], p);
      k := k + 1;
    }
  }

  /**
   * Whatever became visible during a run was linked by one of its processes, and its content, then and
   * ever after, has the size and the digest of that process's job. From a state without processes, the
   * job is one that the process was given earlier in the run.
   */
  lemma VisibleIsVerified(hash: Hash, s: State, run: seq<(Pid, Event)>, n: Path) returns (k: nat, job: Job)
    requires Inv(hash, s) && Exec(hash, s, run).Some?
    requires n !in View(s) && n in View(Exec(hash, s, run).value)
    ensures LinkedAt(hash, s, run, k, n, job)
    ensures var content := View(Exec(hash, s, run).value)[n];
      && (job.size >= 0 ==> |content| == job.size)
      && (job.dgst.Some? ==> ValidDigest(job.dgst.value) && hash(content) == job.dgst.value)
    ensures Init(s) ==> exists j :: 0 <= j < k && run[j] == (run[k].0, Begin(job))
  {
    k, job := VisibleWasLinked(hash, s, run, n);
    if Init(s) {
      var j := JobWasBegun(hash, s, run[..k], run[k].0);
      assert run[j] == (run[k].0, Begin(job));
    }
  }

  // ---------------------------------------------------------------------------------------------
  // Whole runs

  datatype Creation = Creation(job: Job, body: Bytes)

  /** The creations a run makes, in order: its links that found their name free. */
  function Creations(hash: Hash, s: State, run: seq<(Pid, Event)>): seq<Creation>
    decreases |run|
  {
    if run == [] then []
    else
      match Step(hash, s, run[0].0, run[0].1)
      case None => []
      case Some(s') =>
        var ph := s.Phase(run[0].0);
        (if run[0].1 == Link(true) && ph.Linking? && ph.job.name !in s.dir then [Creation(ph.job, Body(s, ph))] else [])
          + Creations(hash, s', run[1..])
  }

  /** Create-if-absent, one creation after another; None when one of them does not create anything. */
  function CreateAll(hash: Hash, es: map<Path, Bytes>, cs: seq<Creation>): Option<map<Path, Bytes>>
    decreases |cs|
  {
    if cs == [] then Some(es)
    else
      var (es', created) := CreateIfAbsent(hash, es, cs[0].job.name, cs[0].body, cs[0].job.size, cs[0].job.dgst);
      if created.Fresh? then CreateAll(hash, es', cs[1..]) else None
  }

  /** Whatever creators do at the same time and wherever they crash, a run is its creations one after another. */
  lemma {:induction false} RunIsItsCreations(hash: Hash, s: State, run: seq<(Pid, Event)>)
    requires Inv(hash, s) && Exec(hash, s, run).Some?
    ensures CreateAll(hash, View(s), Creations(hash, s, run)) == Some(View(Exec(hash, s, run).value))
    decreases |run|
  {
    if run != [] {
      var (p, e) := run[0];
      var ph, s' := s.Phase(p), Step(hash, s, p, e).value;
      StepKeepsInv(hash, s, p, e);
      RunIsItsCreations(hash, s', run[1..]);
      if e == Link(true) && ph.Linking? && ph.job.name !in s.dir {
        LinkRefinesCreate(hash, s, p);
        var here := [Creation(ph.job, Body(s, ph))];
        assert (here + Creations(hash, s', run[1..]))[1..] == Creations(hash, s', run[1..]);
      } else {
        OthersStutter(hash, s, p, e);
        assert [] + Creations(hash, s', run[1..]) == Creations(hash, s', run[1..]);
      }
    }
  }

  /** List yields exactly the logical entries, and never the temporary file of a creator at work. */
  lemma ListIsTheView(hash: Hash, s: State)
    requires Inv(hash, s)
    ensures List(s) == View(s).Keys
    ensures forall p: Pid | s.Phase(p).HasTemp() :: s.Phase(p).tmp in s.dir && s.Phase(p).tmp !in List(s)
  {
    forall p: Pid | s.Phase(p).HasTemp() ensures s.Phase(p).tmp in s.dir && s.Phase(p).tmp.IsTemp() {
      assert PhaseOK(hash, s, s.Phase(p));
    }
  }
}
