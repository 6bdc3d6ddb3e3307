/** The forked loader: one goroutine per imported package and the entry files on the caller's own,
    interleaved step by step. A step is what happens between two lock operations or inside one. */
module ForkedLoader {
  import opened Source
  import opened SourceTree

  /** What `parseFile` returns: the program of the file, or an empty one if it was visited before. */
  datatype LoadedFile = LoadedFile(path: Path, full: bool)

  /** A goroutine: whether it has listed its package, the files still to parse, the file it has
      claimed but not parsed, the imports of its last file still to start, the files parsed, and
      whether it has closed its channel. */
  datatype Job = Job(listed: bool, todo: seq<Path>, claimed: Option<Path>, pending: seq<Dir>, files: seq<LoadedFile>,
                     done: bool)

  /** The shared state. Job 0 parses the entry files, job k + 1 the package `order[k]`; `index` is the
      position of the wait loop, which starts when the root files are taken. */
  datatype State = State(visited: set<Path>, packageJobs: set<Dir>, order: seq<Dir>, jobs: seq<Job>,
                         rootTaken: bool, index: nat, collected: seq<Path>, finished: bool)

  datatype Step =
    | ListFiles(i: nat)
    | Claim(i: nat)
    | SkipVisited(i: nat)
    | Parse(i: nat)
    | StartJob(i: nat)
    | KnownJob(i: nat)
    | CloseDone(i: nat)
    | TakeRoot
    | TakeJob
    | LeaveLoop

  const NEW_JOB := Job(false, [], None, [], [], false)

  function Init(t: Tree): State {
    State({}, {}, [], [Job(true, t.entry, None, [], [], false)], false, 0, [], false)
  }

  /** Whether a job is between two files. */
  predicate Idle(j: Job) {
    j.listed && !j.done && j.claimed.None? && j.pending == []
  }

  predicate Enabled(t: Tree, s: State, step: Step) {
    !s.finished &&
    match step
    case ListFiles(i) => 0 < i < |s.jobs| && i <= |s.order| && !s.jobs[i].listed && s.order[i - 1] in t.files
    case Claim(i) => i < |s.jobs| && Idle(s.jobs[i]) && s.jobs[i].todo != [] && s.jobs[i].todo[0] !in s.visited
    case SkipVisited(i) => i < |s.jobs| && Idle(s.jobs[i]) && s.jobs[i].todo != [] && s.jobs[i].todo[0] in s.visited
    case Parse(i) => i < |s.jobs| && s.jobs[i].claimed.Some? && s.jobs[i].claimed.value in t.imports
    case StartJob(i) => i < |s.jobs| && s.jobs[i].pending != [] && s.jobs[i].pending[0] !in s.packageJobs
    case KnownJob(i) => i < |s.jobs| && s.jobs[i].pending != [] && s.jobs[i].pending[0] in s.packageJobs
    case CloseDone(i) => i < |s.jobs| && Idle(s.jobs[i]) && s.jobs[i].todo == []
    case TakeRoot => !s.rootTaken && s.jobs != [] && s.jobs[0].done
    case TakeJob => s.rootTaken && s.index < |s.order| && s.index + 1 < |s.jobs| && s.jobs[s.index + 1].done
    case LeaveLoop => s.rootTaken && s.index >= |s.order|
  }

  function Apply(t: Tree, s: State, step: Step): State
    requires Enabled(t, s, step)
  {
    match step
    case ListFiles(i) => s.(jobs := s.jobs[i := s.jobs[i].(listed := true, todo := t.files[s.order[i - 1]])])
    case Claim(i) =>
      var j := s.jobs[i];
      s.(visited := s.visited + {j.todo[0]}, jobs := s.jobs[i := j.(claimed := Some(j.todo[0]), todo := j.todo[1..])])
    case SkipVisited(i) =>
      var j := s.jobs[i];
      s.(jobs := s.jobs[i := j.(files := j.files + [LoadedFile(j.todo[0], false)], todo := j.todo[1..])])
    case Parse(i) =>
      var j := s.jobs[i];
      var p := j.claimed.value;
      s.(jobs := s.jobs[i := j.(files := j.files + [LoadedFile(p, true)], claimed := None, pending := t.imports[p])])
    case StartJob(i) =>
      var j := s.jobs[i];
      var d := j.pending[0];
      s.(packageJobs := s.packageJobs + {d}, order := s.order + [d],
         jobs := s.jobs[i := j.(pending := j.pending[1..])] + [NEW_JOB])
    case KnownJob(i) => s.(jobs := s.jobs[i := s.jobs[i].(pending := s.jobs[i].pending[1..])])
    case CloseDone(i) => s.(jobs := s.jobs[i := s.jobs[i].(done := true)])
    case TakeRoot => s.(rootTaken := true, collected := s.collected + FullPaths(s.jobs[0].files))
    case TakeJob => s.(index := s.index + 1, collected := s.collected + FullPaths(s.jobs[s.index + 1].files))
    case LeaveLoop => s.(finished := true)
  }

  /** `appendLoadedFiles` passes over the empty programs. */
  function FullPaths(files: seq<LoadedFile>): seq<Path> {
    if files == [] then [] else (if files[0].full then [files[0].path] else []) + FullPaths(files[1..])
  }

  // ----- what every step keeps -----

  predicate JobValid(t: Tree, j: Job) {
    && (forall p :: p in j.todo ==> p in t.imports)
    && (j.claimed.Some? ==> j.claimed.value in t.imports && j.pending == [])
    && (forall d :: d in j.pending ==> d in t.files)
    && (!j.listed ==> j == NEW_JOB)
    && (j.done ==> j.listed && j.todo == [] && j.claimed.None? && j.pending == [])
  }

  /** Jobs and packages belong together, and the wait loop has passed only jobs that are done. */
  predicate Shape(t: Tree, s: State) {
    && |s.jobs| == |s.order| + 1 && s.jobs[0].listed
    && (forall d :: d in s.packageJobs ==> d in s.order) && (forall d :: d in s.order ==> d in s.packageJobs)
    && (forall k, l :: 0 <= k < l < |s.order| ==> s.order[k] != s.order[l])
    && s.packageJobs <= t.files.Keys && s.visited <= t.imports.Keys
    && (forall i :: 0 <= i < |s.jobs| ==> JobValid(t, s.jobs[i]))
  }

  predicate Waited(s: State)
    requires |s.jobs| == |s.order| + 1
  {
    && s.index <= |s.order| && (!s.rootTaken ==> s.index == 0)
    && (s.rootTaken ==> s.jobs[0].done)
    && (forall k :: 0 < k <= s.index ==> s.jobs[k].done)
    && (s.finished ==> s.rootTaken && s.index == |s.order|)
  }

  /** Nothing is visited, listed or started that is not needed. */
  ghost predicate Needed(t: Tree, s: State)
    requires Readable(t)
  {
    forall fs, ds :: Closed(t, fs, ds) ==> Within(s, fs, ds)
  }

  predicate Within(s: State, fs: set<Path>, ds: set<Dir>) {
    && s.visited <= fs && s.packageJobs <= ds
    && forall i :: 0 <= i < |s.jobs| ==> JobWithin(s.jobs[i], fs, ds)
  }

  predicate JobWithin(j: Job, fs: set<Path>, ds: set<Dir>) {
    && (forall p :: p in j.todo ==> p in fs)
    && (j.claimed.Some? ==> j.claimed.value in fs)
    && (forall d :: d in j.pending ==> d in ds)
  }

  /** What is named by something visited or started is itself visited, started, or still in hand. */
  predicate Covered(t: Tree, s: State)
    requires Shape(t, s)
  {
    && (forall p :: p in t.entry ==> p in s.visited || p in s.jobs[0].todo)
    && (forall k, p :: 0 <= k < |s.order| && s.jobs[k + 1].listed && p in t.files[s.order[k]] ==>
          p in s.visited || p in s.jobs[k + 1].todo)
    && (forall p, d :: p in s.visited && d in t.imports[p] ==> d in s.packageJobs || InHand(s.jobs, p, d))
  }

  /** Some job has yet to follow the import of `d` by `p`. */
  predicate InHand(jobs: seq<Job>, p: Path, d: Dir) {
    exists i :: 0 <= i < |jobs| && (jobs[i].claimed == Some(p) || d in jobs[i].pending)
  }

  /** The files a job contributes or is about to. */
  function Share(j: Job): multiset<Path> {
    multiset(FullPaths(j.files)) + if j.claimed.Some? then multiset{j.claimed.value} else multiset{}
  }

  function Shares(jobs: seq<Job>): multiset<Path> {
    if jobs == [] then multiset{} else Share(jobs[0]) + Shares(jobs[1..])
  }

  /** What the wait loop has taken over from the first `n` jobs. */
  function Gathered(jobs: seq<Job>, n: nat): seq<Path>
    requires n <= |jobs|
  {
    if n == 0 then [] else Gathered(jobs, n - 1) + FullPaths(jobs[n - 1].files)
  }

  /** Every visited file belongs to one job, and the collected files are those of the jobs taken. */
  predicate Shared(s: State)
    requires s.index < |s.jobs|
  {
    && Shares(s.jobs) == multiset(s.visited)
    && s.collected == if s.rootTaken then Gathered(s.jobs, s.index + 1) else []
  }

  ghost predicate Inv(t: Tree, s: State)
    requires Readable(t)
  {
    Shape(t, s) && Waited(s) && Needed(t, s) && Covered(t, s) && Shared(s)
  }

  predicate OneJob(step: Step) {
    step.ListFiles? || step.Claim? || step.SkipVisited? || step.Parse? || step.KnownJob? || step.CloseDone?
  }

  /** A step of one job changes that job, and what is visited when it claims a file. */
  lemma {:induction false} OneJobFrame(t: Tree, s: State, step: Step)
    requires Enabled(t, s, step) && OneJob(step)
    ensures var i, s' := step.i, Apply(t, s, step);
      && i < |s.jobs| && s' == s.(visited := s'.visited, jobs := s.jobs[i := s'.jobs[i]])
      && (step.Claim? ==> s.jobs[i].todo != [])
      && s'.visited == s.visited + if step.Claim? then {s.jobs[i].todo[0]} else {}
  {
  }

  lemma {:induction false} OneJobValid(t: Tree, s: State, step: Step)
    requires Readable(t) && Enabled(t, s, step) && OneJob(step) && step.i < |s.jobs| && JobValid(t, s.jobs[step.i])
    ensures var s' := Apply(t, s, step);
      && |s'.jobs| == |s.jobs| && JobValid(t, s'.jobs[step.i])
      && (s.jobs[step.i].listed ==> s'.jobs[step.i].listed)
      && (step.Claim? ==> s.jobs[step.i].todo != [] && s.jobs[step.i].todo[0] in t.imports)
  {
  }

  /** The steps of the wait loop change no job. */
  lemma {:induction false} LoopFrame(t: Tree, s: State, step: Step)
    requires Enabled(t, s, step) && !OneJob(step) && !step.StartJob?
    ensures var s' := Apply(t, s, step);
      s' == s.(rootTaken := s'.rootTaken, index := s'.index, collected := s'.collected, finished := s'.finished)
  {
  }

  lemma {:induction false} StartValid(t: Tree, s: State, i: nat)
    requires i < |s.jobs| && JobValid(t, s.jobs[i]) && s.jobs[i].pending != []
    ensures s.jobs[i].pending[0] in t.files && JobValid(t, NEW_JOB)
    ensures s.jobs[i].listed && JobValid(t, s.jobs[i].(pending := s.jobs[i].pending[1..]))
  {
  }

  lemma {:induction false} ShapeKept(t: Tree, s: State, step: Step)
    requires Readable(t) && Shape(t, s) && Enabled(t, s, step)
    ensures Shape(t, Apply(t, s, step))
  {
    hide JobValid, Readable;
    if OneJob(step) {
      hide Apply, Enabled;
      OneJobFrame(t, s, step);
      OneJobValid(t, s, step);
    } else if step.StartJob? {
      StartValid(t, s, step.i);
    } else {
      hide Apply, Enabled;
      LoopFrame(t, s, step);
    }
  }

  lemma {:induction false} WaitedKept(t: Tree, s: State, step: Step)
    requires Readable(t) && Shape(t, s) && Waited(s) && Enabled(t, s, step)
    ensures Shape(t, Apply(t, s, step)) && Waited(Apply(t, s, step))
  {
    ShapeKept(t, s, step);
  }

  lemma {:induction false} NeededKept(t: Tree, s: State, step: Step)
    requires Readable(t) && Shape(t, s) && Needed(t, s) && Enabled(t, s, step)
    ensures Needed(t, Apply(t, s, step))
  {
    forall fs, ds | Closed(t, fs, ds) ensures Within(Apply(t, s, step), fs, ds) {
      WithinKept(t, s, step, fs, ds);
    }
  }

  lemma {:induction false} WithinKept(t: Tree, s: State, step: Step, fs: set<Path>, ds: set<Dir>)
    requires Readable(t) && Shape(t, s) && Closed(t, fs, ds) && Within(s, fs, ds) && Enabled(t, s, step)
    ensures Within(Apply(t, s, step), fs, ds)
  {
    hide JobWithin, Closed, Readable;
    if OneJob(step) {
      hide Apply, Enabled;
      OneJobFrame(t, s, step);
      assert JobWithin(s.jobs[step.i], fs, ds);
      JobWithinKept(t, s, step, fs, ds);
    } else if step.StartJob? {
      hide Shape;
      assert JobWithin(s.jobs[step.i], fs, ds);
      StartWithin(s.jobs[step.i], fs, ds);
    } else {
      hide Apply, Enabled;
      LoopFrame(t, s, step);
    }
  }

  lemma {:induction false} JobWithinKept(t: Tree, s: State, step: Step, fs: set<Path>, ds: set<Dir>)
    requires Readable(t) && Shape(t, s) && Closed(t, fs, ds) && s.packageJobs <= ds
    requires Enabled(t, s, step) && OneJob(step) && step.i < |s.jobs| && JobWithin(s.jobs[step.i], fs, ds)
    ensures var s' := Apply(t, s, step);
      && |s'.jobs| == |s.jobs| && JobWithin(s'.jobs[step.i], fs, ds)
      && (step.Claim? ==> s.jobs[step.i].todo != [] && s.jobs[step.i].todo[0] in fs)
  {
    hide JobValid;
  }

  lemma {:induction false} StartWithin(j: Job, fs: set<Path>, ds: set<Dir>)
    requires JobWithin(j, fs, ds) && j.pending != []
    ensures j.pending[0] in ds && JobWithin(j.(pending := j.pending[1..]), fs, ds) && JobWithin(NEW_JOB, fs, ds)
  {
  }

  lemma {:induction false} CoveredKept(t: Tree, s: State, step: Step)
    requires Readable(t) && Shape(t, s) && Covered(t, s) && Enabled(t, s, step)
    ensures Shape(t, Apply(t, s, step)) && Covered(t, Apply(t, s, step))
  {
    hide Enabled, Apply, InHand, JobValid;
    ShapeKept(t, s, step);
    var s' := Apply(t, s, step);
    forall p | p in t.entry ensures p in s'.visited || p in s'.jobs[0].todo {
      TodoKept(t, s, step, 0, p);
    }
    forall k, p | 0 <= k < |s'.order| && s'.jobs[k + 1].listed && p in t.files[s'.order[k]]
      ensures p in s'.visited || p in s'.jobs[k + 1].todo
    {
      ListedKept(t, s, step, k, p);
    }
    forall p, d | p in s'.visited && d in t.imports[p]
      ensures d in s'.packageJobs || InHand(s'.jobs, p, d)
    {
      ImportKept(t, s, step, p, d);
    }
  }

  /** A file leaves a job's list only by being visited. */
  lemma {:induction false} TodoKept(t: Tree, s: State, step: Step, i: nat, p: Path)
    requires Shape(t, s) && Enabled(t, s, step) && i < |s.jobs|
    requires p in s.visited || p in s.jobs[i].todo
    ensures var s' := Apply(t, s, step); i < |s'.jobs| && (p in s'.visited || p in s'.jobs[i].todo)
  {
    if (step.Claim? || step.SkipVisited?) && step.i == i && p in s.jobs[i].todo && p != s.jobs[i].todo[0] {
      assert p in s.jobs[i].todo[1..];
    } else if step.ListFiles? && step.i == i {
      assert JobValid(t, s.jobs[i]);
    }
  }

  /** A job is listed by its own step. */
  lemma {:induction false} JobListed(t: Tree, s: State, step: Step, i: nat)
    requires |s.jobs| == |s.order| + 1 && Enabled(t, s, step)
    requires i < |Apply(t, s, step).jobs| && Apply(t, s, step).jobs[i].listed
    ensures s.order <= Apply(t, s, step).order && i < |s.jobs| && (s.jobs[i].listed || step == ListFiles(i))
    ensures step == ListFiles(i) && i > 0 ==> s.order[i - 1] in t.files
    ensures step == ListFiles(i) && i > 0 ==> Apply(t, s, step).jobs[i].todo == t.files[s.order[i - 1]]
  {
    hide FullPaths;
  }

  lemma {:induction false} ListedKept(t: Tree, s: State, step: Step, k: nat, p: Path)
    requires Readable(t) && Shape(t, s) && Covered(t, s) && Enabled(t, s, step)
    requires var s' := Apply(t, s, step);
      Shape(t, s') && k < |s'.order| && s'.jobs[k + 1].listed && p in t.files[s'.order[k]]
    ensures var s' := Apply(t, s, step); p in s'.visited || p in s'.jobs[k + 1].todo
  {
    hide Apply, Enabled, JobValid, Readable, InHand;
    JobListed(t, s, step, k + 1);
    assert Apply(t, s, step).order[k] == s.order[k];
    if s.jobs[k + 1].listed {
      TodoKept(t, s, step, k + 1, p);
    }
  }

  lemma {:induction false} ImportKept(t: Tree, s: State, step: Step, p: Path, d: Dir)
    requires Readable(t) && Shape(t, s) && Covered(t, s) && Enabled(t, s, step)
    requires p in Apply(t, s, step).visited && p in t.imports && d in t.imports[p]
    ensures var s' := Apply(t, s, step); d in s'.packageJobs || InHand(s'.jobs, p, d)
  {
    hide Readable;
    var s' := Apply(t, s, step);
    if p !in s.visited {
      hide Shape, Covered;
      assert s'.jobs[step.i].claimed == Some(p);
    } else if d !in s.packageJobs {
      var i :| 0 <= i < |s.jobs| && (s.jobs[i].claimed == Some(p) || d in s.jobs[i].pending);
      assert JobValid(t, s.jobs[i]);
      hide Shape, Covered;
      HandKept(t, s, step, p, d, i);
    }
  }

  /** What one job has in hand it keeps, or starts. */
  lemma {:induction false} HandKept(t: Tree, s: State, step: Step, p: Path, d: Dir, i: nat)
    requires Enabled(t, s, step) && p in t.imports && d in t.imports[p]
    requires i < |s.jobs| && JobValid(t, s.jobs[i]) && (s.jobs[i].claimed == Some(p) || d in s.jobs[i].pending)
    ensures var s' := Apply(t, s, step);
      d in s'.packageJobs || (i < |s'.jobs| && (s'.jobs[i].claimed == Some(p) || d in s'.jobs[i].pending))
  {
    var s', j := Apply(t, s, step), s.jobs[i];
    if (step.KnownJob? || step.StartJob?) && step.i == i {
      assert j.pending == [j.pending[0]] + j.pending[1..];
      assert s'.jobs[i].pending == j.pending[1..];
    }
  }

  // ----- every file in one job's hands -----

  lemma {:induction false} Shift(a: multiset<Path>, b: multiset<Path>, c: multiset<Path>, d: multiset<Path>,
                                 e: multiset<Path>)
    requires b + c == d + e
    ensures (a + b) + c == (a + d) + e
  {
    assert (a + b) + c == a + (b + c);
    assert (a + d) + e == a + (d + e);
  }

  lemma {:induction false} Cancel(a: multiset<Path>, b: multiset<Path>, c: multiset<Path>, d: multiset<Path>)
    requires a + b == c + (b + d)
    ensures a == c + d
  {
    assert a == (a + b) - b;
    assert c + d == (c + (b + d)) - b;
  }

  lemma {:induction false} SharesUpdate(jobs: seq<Job>, i: nat, j: Job)
    requires i < |jobs|
    ensures Shares(jobs[i := j]) + Share(jobs[i]) == Shares(jobs) + Share(j)
    decreases i
  {
    hide Share;
    var jobs' := jobs[i := j];
    if i > 0 {
      SharesUpdate(jobs[1..], i - 1, j);
      assert jobs'[1..] == jobs[1..][i - 1 := j];
      assert Shares(jobs') == Share(jobs[0]) + Shares(jobs'[1..]);
      Shift(Share(jobs[0]), Shares(jobs'[1..]), Share(jobs[i]), Shares(jobs[1..]), Share(j));
    } else {
      assert jobs'[1..] == jobs[1..];
      assert Shares(jobs') == Share(j) + Shares(jobs'[1..]);
    }
  }

  lemma {:induction false} SharesPush(jobs: seq<Job>, j: Job)
    ensures Shares(jobs + [j]) == Shares(jobs) + Share(j)
    decreases |jobs|
  {
    if jobs == [] {
      assert [j][1..] == [];
    } else {
      assert (jobs + [j])[1..] == jobs[1..] + [j];
      SharesPush(jobs[1..], j);
    }
  }

  lemma {:induction false} FullPathsPush(files: seq<LoadedFile>, f: LoadedFile)
    ensures FullPaths(files + [f]) == FullPaths(files) + if f.full then [f.path] else []
    decreases |files|
  {
    if files == [] {
      assert [f][1..] == [];
    } else {
      var first, rest := if files[0].full then [files[0].path] else [], files[1..];
      var last := if f.full then [f.path] else [];
      assert (files + [f])[1..] == rest + [f];
      assert FullPaths(files + [f]) == first + FullPaths(rest + [f]);
      assert FullPaths(files) == first + FullPaths(rest);
      hide FullPaths;
      FullPathsPush(rest, f);
      assert first + (FullPaths(rest) + last) == (first + FullPaths(rest)) + last;
    }
  }

  /** Changing one job changes the shares by what that job's share changes by. */
  lemma {:induction false} SharesGrow(jobs: seq<Job>, i: nat, j: Job, more: multiset<Path>)
    requires i < |jobs| && Share(j) == Share(jobs[i]) + more
    ensures Shares(jobs[i := j]) == Shares(jobs) + more
  {
    hide Share, Shares;
    SharesUpdate(jobs, i, j);
    Cancel(Shares(jobs[i := j]), Share(jobs[i]), Shares(jobs), more);
  }

  /** A job's share grows by the file it claims and by nothing else. */
  lemma {:induction false} ShareKept(t: Tree, s: State, step: Step)
    requires Shape(t, s) && Enabled(t, s, step) && OneJob(step)
    ensures var i, s' := step.i, Apply(t, s, step);
      i < |s.jobs| && s'.jobs == s.jobs[i := s'.jobs[i]] &&
      Share(s'.jobs[i]) == Share(s.jobs[i]) + if step.Claim? then multiset{s.jobs[i].todo[0]} else multiset{}
  {
    hide Shape, JobValid, FullPaths;
    var j := s.jobs[step.i];
    match step {
      case ListFiles(i) => UnlistedShare(t, s, i);
      case SkipVisited(i) => FullPathsPush(j.files, LoadedFile(j.todo[0], false));
      case Parse(i) => FullPathsPush(j.files, LoadedFile(j.claimed.value, true));
      case _ =>
    }
  }

  /** A step adds to the shares exactly the file it visits. */
  lemma {:induction false} SharesKept(t: Tree, s: State, step: Step)
    requires Shape(t, s) && Enabled(t, s, step) && Shares(s.jobs) == multiset(s.visited)
    ensures var s' := Apply(t, s, step); Shares(s'.jobs) == multiset(s'.visited)
  {
    hide Shares, Share, Shape, JobValid;
    var s' := Apply(t, s, step);
    if OneJob(step) {
      var i := step.i;
      ShareKept(t, s, step);
      SharesGrow(s.jobs, i, s'.jobs[i], if step.Claim? then multiset{s.jobs[i].todo[0]} else multiset{});
      if step.Claim? { VisitedGrow(s.visited, s.jobs[i].todo[0]); }
    } else if step.StartJob? {
      StartShares(s, step.i);
    }
  }

  lemma {:induction false} StartShares(s: State, i: nat)
    requires i < |s.jobs| && s.jobs[i].pending != []
    ensures var j := s.jobs[i].(pending := s.jobs[i].pending[1..]);
      Shares(s.jobs[i := j] + [NEW_JOB]) == Shares(s.jobs)
  {
    hide Shares;
    var j := s.jobs[i].(pending := s.jobs[i].pending[1..]);
    SharesGrow(s.jobs, i, j, multiset{});
    SharesPush(s.jobs[i := j], NEW_JOB);
  }

  lemma {:induction false} VisitedGrow(s: set<Path>, p: Path)
    requires p !in s
    ensures multiset(s + {p}) == multiset(s) + multiset{p}
  {
  }

  lemma {:induction false} UnlistedShare(t: Tree, s: State, i: nat)
    requires Shape(t, s) && i < |s.jobs| && !s.jobs[i].listed
    ensures s.jobs[i] == NEW_JOB
  {
    assert JobValid(t, s.jobs[i]);
  }

  /** A job that is done keeps its files. */
  lemma {:induction false} DoneKeeps(t: Tree, s: State, step: Step, k: nat)
    requires Shape(t, s) && Enabled(t, s, step) && k < |s.jobs| && s.jobs[k].done
    ensures k < |Apply(t, s, step).jobs| && Apply(t, s, step).jobs[k].files == s.jobs[k].files
  {
    assert JobValid(t, s.jobs[k]);
  }

  lemma {:induction false} GatheredKept(t: Tree, s: State, step: Step, n: nat)
    requires Shape(t, s) && Enabled(t, s, step) && n <= |s.jobs| && forall k :: 0 <= k < n ==> s.jobs[k].done
    ensures n <= |Apply(t, s, step).jobs| && Gathered(Apply(t, s, step).jobs, n) == Gathered(s.jobs, n)
    decreases n
  {
    hide Shape, Enabled, Apply, Gathered, FullPaths;
    if n == 0 {
      GatheredNone(s.jobs);
      GatheredNone(Apply(t, s, step).jobs);
    } else {
      GatheredKept(t, s, step, n - 1);
      DoneKeeps(t, s, step, n - 1);
      GatheredNext(s.jobs, n - 1);
      GatheredNext(Apply(t, s, step).jobs, n - 1);
    }
  }

  lemma {:induction false} SharedKept(t: Tree, s: State, step: Step)
    requires Readable(t) && Shape(t, s) && Waited(s) && Shared(s) && Enabled(t, s, step)
    ensures Apply(t, s, step).index < |Apply(t, s, step).jobs| && Shared(Apply(t, s, step))
  {
    hide Shape, Enabled, Apply, Shares, Gathered, Readable;
    SharesKept(t, s, step);
    JobsAndOrder(t, s);
    if s.rootTaken {
      GatheredKept(t, s, step, s.index + 1);
    }
    CollectedKept(t, s, step);
  }

  lemma {:induction false} JobsAndOrder(t: Tree, s: State)
    requires Shape(t, s)
    ensures |s.jobs| == |s.order| + 1
  {
  }

  lemma {:induction false} GatheredNext(jobs: seq<Job>, n: nat)
    requires n < |jobs|
    ensures Gathered(jobs, n + 1) == Gathered(jobs, n) + FullPaths(jobs[n].files)
  {
    hide FullPaths;
  }

  lemma {:induction false} CollectedKept(t: Tree, s: State, step: Step)
    requires |s.jobs| == |s.order| + 1 && Waited(s) && Enabled(t, s, step)
    requires var s' := Apply(t, s, step);
      s.rootTaken ==> s.index < |s'.jobs| && Gathered(s'.jobs, s.index + 1) == Gathered(s.jobs, s.index + 1)
    requires s.collected == if s.rootTaken then Gathered(s.jobs, s.index + 1) else []
    ensures var s' := Apply(t, s, step);
      s'.index < |s'.jobs| && s'.collected == if s'.rootTaken then Gathered(s'.jobs, s'.index + 1) else []
  {
    hide FullPaths, Gathered;
    if OneJob(step) {
      hide Apply, Enabled;
      OneJobFrame(t, s, step);
    } else if step.TakeRoot? {
      GatheredNext(s.jobs, 0);
      assert Gathered(s.jobs, 0) == [] by { GatheredNone(s.jobs); }
    } else if step.TakeJob? {
      GatheredNext(s.jobs, s.index + 1);
    }
  }

  lemma {:induction false} GatheredNone(jobs: seq<Job>)
    ensures Gathered(jobs, 0) == []
  {
  }

  lemma {:induction false} InvKept(t: Tree, s: State, step: Step)
    requires Readable(t) && Inv(t, s) && Enabled(t, s, step)
    ensures Inv(t, Apply(t, s, step))
  {
    WaitedKept(t, s, step);
    NeededKept(t, s, step);
    CoveredKept(t, s, step);
    SharedKept(t, s, step);
  }

  lemma {:induction false} InvInit(t: Tree)
    requires Readable(t)
    ensures Inv(t, Init(t))
  {
  }

  // ----- runs -----

  /** A run: states with the steps between them. */
  predicate IsRun(t: Tree, run: seq<State>, steps: seq<Step>) {
    && |run| == |steps| + 1 && run[0] == Init(t)
    && forall i :: 0 <= i < |steps| ==> Enabled(t, run[i], steps[i]) && run[i + 1] == Apply(t, run[i], steps[i])
  }

  lemma {:induction false} RunKeepsInv(t: Tree, run: seq<State>, steps: seq<Step>, n: nat)
    requires Readable(t) && IsRun(t, run, steps) && n <= |steps|
    ensures Inv(t, run[n])
    decreases n
  {
    if n == 0 {
      InvInit(t);
    } else {
      RunKeepsInv(t, run, steps, n - 1);
      InvKept(t, run[n - 1], steps[n - 1]);
    }
  }

  lemma {:induction false} GatheredShares(jobs: seq<Job>, n: nat)
    requires n <= |jobs| && forall i :: 0 <= i < n ==> jobs[i].claimed.None?
    ensures multiset(Gathered(jobs, n)) == Shares(jobs[..n])
    decreases n
  {
    hide Shares, FullPaths;
    if n > 0 {
      GatheredShares(jobs, n - 1);
      SharesPush(jobs[..n - 1], jobs[n - 1]);
      assert jobs[..n] == jobs[..n - 1] + [jobs[n - 1]];
      assert Share(jobs[n - 1]) == multiset(FullPaths(jobs[n - 1].files));
    } else {
      NoShares(jobs[..0]);
    }
  }

  lemma {:induction false} NoShares(jobs: seq<Job>)
    requires jobs == []
    ensures Shares(jobs) == multiset{}
  {
  }

  lemma {:induction false} CountedOnce(xs: seq<Path>, s: set<Path>)
    requires multiset(xs) == multiset(s)
    ensures ExactlyOnce(xs, s)
  {
    forall x ensures x in xs <==> x in s {
      assert x in xs <==> x in multiset(xs);
      assert x in s <==> x in multiset(s);
    }
    forall i, j | 0 <= i < j < |xs| ensures xs[i] != xs[j] {
      var a, b, c := xs[..i], xs[i + 1..j], xs[j + 1..];
      assert xs == a + [xs[i]] + b + [xs[j]] + c;
      assert multiset(s)[xs[i]] <= 1;
    }
  }

  /** When the wait loop ends, every started job has finished and none can start another; the files
      and packages are the reachable ones, and every file was collected once. */
  lemma {:induction false} FinishedIsComplete(t: Tree, s: State)
    requires Readable(t) && Inv(t, s) && s.finished
    ensures forall i :: 0 <= i < |s.jobs| ==> s.jobs[i].done && s.jobs[i].pending == [] && s.jobs[i].claimed.None?
    ensures Reachable(t, s.visited, s.packageJobs)
    ensures ExactlyOnce(s.collected, s.visited)
  {
    hide Shape, Needed, Covered, Shares, Gathered, JobValid;
    AllDone(t, s);
    JobsAndOrder(t, s);
    FinishedReachable(t, s);
    GatheredShares(s.jobs, |s.jobs|);
    assert s.jobs[..|s.jobs|] == s.jobs;
    CountedOnce(s.collected, s.visited);
  }

  lemma {:induction false} AllDone(t: Tree, s: State)
    requires Shape(t, s) && Waited(s) && s.finished
    ensures forall i :: 0 <= i < |s.jobs| ==> s.jobs[i].done && JobValid(t, s.jobs[i])
    ensures forall i :: 0 <= i < |s.jobs| ==> s.jobs[i].pending == [] && s.jobs[i].claimed.None?
  {
    forall i | 0 <= i < |s.jobs|
      ensures s.jobs[i].done && JobValid(t, s.jobs[i]) && s.jobs[i].pending == [] && s.jobs[i].claimed.None?
    {
      assert JobValid(t, s.jobs[i]);
    }
  }

  lemma {:induction false} FinishedReachable(t: Tree, s: State)
    requires Readable(t) && Shape(t, s) && Covered(t, s) && Needed(t, s)
    requires forall i :: 0 <= i < |s.jobs| ==> s.jobs[i].done && JobValid(t, s.jobs[i])
    ensures Reachable(t, s.visited, s.packageJobs)
  {
    forall p, d | p in s.visited && d in t.imports[p] ensures d in s.packageJobs {
      forall i | 0 <= i < |s.jobs| ensures s.jobs[i].claimed.None? && s.jobs[i].pending == [] {
        assert s.jobs[i].done && JobValid(t, s.jobs[i]);
      }
    }
    forall d, p | d in s.packageJobs && p in t.files[d] ensures p in s.visited {
      var k :| 0 <= k < |s.order| && s.order[k] == d;
      assert s.jobs[k + 1].done && JobValid(t, s.jobs[k + 1]);
    }
    assert s.jobs[0].done && JobValid(t, s.jobs[0]);
  }

  /** Every interleaving that ends loads what the sequential loader loads, each file once. */
  lemma {:induction false} ForkedMatchesSequential(t: Tree, run: seq<State>, steps: seq<Step>, fs: set<Path>,
                                                   ds: set<Dir>)
    requires Readable(t) && IsRun(t, run, steps) && run[|steps|].finished
    requires Reachable(t, fs, ds)
    ensures var s := run[|steps|]; s.visited == fs && s.packageJobs == ds && ExactlyOnce(s.collected, fs)
  {
    RunKeepsInv(t, run, steps, |steps|);
    FinishedIsComplete(t, run[|steps|]);
    ReachableUnique(t, run[|steps|].visited, run[|steps|].packageJobs, fs, ds);
  }

  // ----- no run is stuck, none goes on forever -----

  /** A step some goroutine can take. */
  lemma {:induction false} NeverStuck(t: Tree, s: State) returns (step: Step)
    requires Readable(t) && Inv(t, s) && !s.finished
    ensures Enabled(t, s, step)
  {
    if i :| 0 <= i < |s.jobs| && !s.jobs[i].done {
      var j := s.jobs[i];
      assert JobValid(t, j);
      if !j.listed {
        step := ListFiles(i);
      } else if j.claimed.Some? {
        step := Parse(i);
      } else if j.pending != [] {
        step := if j.pending[0] in s.packageJobs then KnownJob(i) else StartJob(i);
      } else if j.todo == [] {
        step := CloseDone(i);
      } else {
        step := if j.todo[0] in s.visited then SkipVisited(i) else Claim(i);
      }
    } else if !s.rootTaken {
      step := TakeRoot;
    } else if s.index < |s.order| {
      step := TakeJob;
    } else {
      step := LeaveLoop;
    }
  }

  function Sum(jobs: seq<Job>, f: Job -> nat): nat {
    if jobs == [] then 0 else f(jobs[0]) + Sum(jobs[1..], f)
  }

  lemma {:induction false} SumUpdate(jobs: seq<Job>, i: nat, j: Job, f: Job -> nat)
    requires i < |jobs|
    ensures Sum(jobs[i := j], f) + f(jobs[i]) == Sum(jobs, f) + f(j)
    decreases i
  {
    var jobs' := jobs[i := j];
    if i > 0 {
      SumUpdate(jobs[1..], i - 1, j, f);
      assert jobs'[1..] == jobs[1..][i - 1 := j];
    } else {
      assert jobs'[1..] == jobs[1..];
    }
  }

  const UNLISTED: Job -> nat := (j: Job) => if j.listed then 0 else 1
  const TODO: Job -> nat := (j: Job) => |j.todo|
  const CLAIMED: Job -> nat := (j: Job) => if j.claimed.Some? then 1 else 0
  const PENDING: Job -> nat := (j: Job) => |j.pending|
  const UNDONE: Job -> nat := (j: Job) => if j.done then 0 else 1

  /** The steps the wait loop has before it. */
  function Waiting(s: State): int {
    (if s.rootTaken then 0 else 1) + (if s.finished then 0 else 1) + |s.order| - s.index
  }

  /** A measure, most significant part first, that every step lowers. */
  predicate Lower(t: Tree, a: State, b: State) {
    var gap := |t.files.Keys| - |a.packageJobs| - (|t.files.Keys| - |b.packageJobs|);
    gap < 0 || (gap == 0 &&
    (Sum(a.jobs, UNLISTED) < Sum(b.jobs, UNLISTED) || (Sum(a.jobs, UNLISTED) == Sum(b.jobs, UNLISTED) &&
    (Sum(a.jobs, TODO) < Sum(b.jobs, TODO) || (Sum(a.jobs, TODO) == Sum(b.jobs, TODO) &&
    (Sum(a.jobs, CLAIMED) < Sum(b.jobs, CLAIMED) || (Sum(a.jobs, CLAIMED) == Sum(b.jobs, CLAIMED) &&
    (Sum(a.jobs, PENDING) < Sum(b.jobs, PENDING) || (Sum(a.jobs, PENDING) == Sum(b.jobs, PENDING) &&
    (Sum(a.jobs, UNDONE) < Sum(b.jobs, UNDONE) || (Sum(a.jobs, UNDONE) == Sum(b.jobs, UNDONE) &&
    Waiting(a) < Waiting(b))))))))))))
  }

  predicate JobLower(a: Job, b: Job) {
    UNLISTED(a) < UNLISTED(b) || (UNLISTED(a) == UNLISTED(b) &&
    (TODO(a) < TODO(b) || (TODO(a) == TODO(b) &&
    (CLAIMED(a) < CLAIMED(b) || (CLAIMED(a) == CLAIMED(b) &&
    (PENDING(a) < PENDING(b) || (PENDING(a) == PENDING(b) &&
    UNDONE(a) < UNDONE(b))))))))
  }

  lemma {:induction false} StepLowers(t: Tree, s: State, step: Step)
    requires Readable(t) && Inv(t, s) && Enabled(t, s, step)
    ensures Lower(t, Apply(t, s, step), s)
  {
    hide Sum, Shape, Needed, Covered, Shared, Readable;
    if OneJob(step) {
      OneJobLowers(t, s, step);
    } else if step.StartJob? {
      hide Inv;
      assert Apply(t, s, step).packageJobs == s.packageJobs + {s.jobs[step.i].pending[0]};
    } else {
      JobsAndOrder(t, s);
    }
  }

  lemma {:induction false} OneJobLowers(t: Tree, s: State, step: Step)
    requires Readable(t) && Inv(t, s) && Enabled(t, s, step) && OneJob(step)
    ensures Lower(t, Apply(t, s, step), s)
  {
    hide Sum, Apply, Enabled, Inv;
    var i, s' := step.i, Apply(t, s, step);
    OneJobFrame(t, s, step);
    JobLowers(t, s, step);
    SumUpdate(s.jobs, i, s'.jobs[i], UNLISTED);
    SumUpdate(s.jobs, i, s'.jobs[i], TODO);
    SumUpdate(s.jobs, i, s'.jobs[i], CLAIMED);
    SumUpdate(s.jobs, i, s'.jobs[i], PENDING);
    SumUpdate(s.jobs, i, s'.jobs[i], UNDONE);
  }

  /** The same for the job of the step alone. */
  lemma {:induction false} JobLowers(t: Tree, s: State, step: Step)
    requires Readable(t) && Inv(t, s) && Enabled(t, s, step) && OneJob(step)
    ensures var s' := Apply(t, s, step);
      step.i < |s.jobs| == |s'.jobs| && JobLower(s'.jobs[step.i], s.jobs[step.i])
  {
    assert JobValid(t, s.jobs[step.i]);
    hide Inv, FullPaths;
  }

  predicate StepAt(t: Tree, run: nat -> State, steps: nat -> Step, i: nat) {
    Enabled(t, run(i), steps(i)) && run(i + 1) == Apply(t, run(i), steps(i))
  }

  /** No interleaving goes on forever: every infinite list of states and steps goes wrong somewhere. */
  lemma {:induction false} NoEndlessRun(t: Tree, run: nat -> State, steps: nat -> Step)
    requires Readable(t) && Inv(t, run(0))
    ensures exists i: nat :: !StepAt(t, run, steps, i)
    decreases |t.files.Keys| - |run(0).packageJobs|, Sum(run(0).jobs, UNLISTED), Sum(run(0).jobs, TODO),
              Sum(run(0).jobs, CLAIMED), Sum(run(0).jobs, PENDING), Sum(run(0).jobs, UNDONE), Waiting(run(0))
  {
    hide Inv, Enabled, Apply, Sum, Waiting;
    if StepAt(t, run, steps, 0) {
      StepLowers(t, run(0), steps(0));
      InvKept(t, run(0), steps(0));
      JobsBounded(t, run(0));
      JobsBounded(t, run(1));
      var run', steps' := (i: nat) => run(i + 1), (i: nat) => steps(i + 1);
      NoEndlessRun(t, run', steps');
      var i: nat :| !StepAt(t, run', steps', i);
      assert !StepAt(t, run, steps, i + 1);
    }
  }

  lemma {:induction false} JobsBounded(t: Tree, s: State)
    requires Readable(t) && Inv(t, s)
    ensures |s.packageJobs| <= |t.files.Keys| && Waiting(s) >= 0
  {
    Subset(s.packageJobs, t.files.Keys);
  }

  lemma {:induction false} Subset(a: set<Dir>, b: set<Dir>)
    requires a <= b
    ensures |a| <= |b|
  {
    assert b == a + (b - a);
  }
}
