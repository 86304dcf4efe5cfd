/** The job spool of the browser-stage container (deploy/uitest/protocol.py, runner.py, submit.py):
    a client and a runner that talk only through the files of a job's directory. Either may stop at
    any moment; a crash takes the whole container, processes included.

    Every file the two sides write is one step, because each is written by an atomic rename, and so
    is every look one side takes at the other's files. Writing into a directory that has vanished
    raises, which ends the runner: such a step is not enabled, and Crash is what remains. */
module Spool {
  import opened Basics
  import M = Memory

  type Job = string
  type Measured = M.Reading   // what result.json holds

  const LOST := 125
  const COULD_NOT_START := 2

  datatype Dir = Dir(jobFile: bool, claimed: bool, cancel: bool, log: string,
                     result: Option<Measured>, exit: Option<int>)

  /** Where the runner's one thread is. Serving is every point of its loop between two jobs. */
  datatype Pc =
    | Down
    | Recovering
    | Seen(job: Job)                    // recover saw its `claimed`, and will look for its `exit`
    | Serving
    | Looking(job: Job)                 // pending saw its job file, and will look for its `claimed`
    | Spawned(job: Job)                 // the process runs, `claimed` is not written
    | Failing(job: Job)                 // could not start it: claimed, `exit` not written
    | Closing(job: Job, code: int, ending: bool)   // result written, `exit` not written
    | Stopping                          // the stop loop
    | Sweeping                          // past its deadline: mark every job left as lost
    | SweepClosing(job: Job)

  datatype State = State(
    dirs: map<Job, Dir>,
    submitted: set<Job>,        // a name is never used twice
    withdrawing: set<Job>,      // clients that saw `claimed` missing and will remove the directory
    pc: Pc,
    listed: set<Job>,           // what `pending` returned and this pass has not come to yet
    running: set<Job>,          // the runner's `running`
    leaders: set<Job>,          // jobs whose process has not exited
    writers: set<Job>,          // jobs some process of which still holds the log
    swept: set<Job>,            // jobs closed past the stop deadline
    started: set<Job>,          // jobs that were started and claimed
    launches: map<Job, nat>,    // how often a process was started for a job
    cutShort: map<Job, nat>)    // how often a crash came between that and `claimed`

  function Count(m: map<Job, nat>, j: Job): nat {
    if j in m then m[j] else 0
  }

  function Start(): State {
    State(map[], {}, {}, Down, {}, {}, {}, {}, {}, {}, map[], map[])
  }

  predicate Pending(s: State, j: Job) {
    j in s.dirs && j !in s.running && s.dirs[j].jobFile && !s.dirs[j].claimed
  }

  datatype Action =
    // clients and processes
    | Submit(j: Job)
    | Cancel(j: Job)
    | SeeUnclaimed(j: Job)
    | Withdraw(j: Job)
    | LeaderExits(j: Job)
    | WritersGone(j: Job)
    | Writes(j: Job, text: string)
    // the runner
    | Boot
    | See(j: Job)
    | Recover(note: string)
    | SeenExit
    | Recovered
    | Look(j: Job)
    | List
    | Unlisted
    | Spawn(j: Job)
    | Claim
    | StartFails(j: Job, note: string)
    | FailExit
    | Close(j: Job, code: int, result: Option<Measured>)
    | WriteExit
    | Prune(j: Job)
    | Stop
    | Deadline
    | Sweep(j: Job, result: Option<Measured>)
    | SweepExit
    | Quit
    | Crash

  predicate Unfinished(d: Dir) {
    d.claimed && d.exit.None?
  }

  /** Every job this pass listed has been started: the polls, the next pass and the end are open. */
  predicate AtTop(s: State) {
    s.pc.Serving? && s.listed == {}
  }

  predicate Enabled(s: State, a: Action) {
    match a
    case Submit(j) => j !in s.submitted
    case Cancel(j) => j in s.dirs
    case SeeUnclaimed(j) => j in s.dirs && !s.dirs[j].claimed
    case Withdraw(j) => j in s.withdrawing
    case LeaderExits(j) => j in s.leaders
    case WritersGone(j) => j in s.writers && j !in s.leaders
    case Writes(j, _) => j in s.writers
    case Boot => s.pc.Down?
    case See(j) => s.pc.Recovering? && j in s.dirs && s.dirs[j].claimed
    case Recover(_) => s.pc.Seen? && s.pc.job in s.dirs && s.dirs[s.pc.job].exit.None?
    case SeenExit => s.pc.Seen? && s.pc.job in s.dirs && s.dirs[s.pc.job].exit.Some?
    case Recovered => s.pc.Recovering? && forall j <- s.dirs :: !Unfinished(s.dirs[j])
    case Look(j) => s.pc.Serving? && j in s.dirs && j !in s.running && s.dirs[j].jobFile
    case List => s.pc.Looking? && (s.pc.job in s.dirs ==> !s.dirs[s.pc.job].claimed)
    case Unlisted => s.pc.Looking? && s.pc.job in s.dirs && s.dirs[s.pc.job].claimed
    case Spawn(j) => s.pc.Serving? && j in s.listed && j in s.dirs
    case Claim => s.pc.Spawned? && s.pc.job in s.dirs
    case StartFails(j, _) => s.pc.Serving? && j in s.listed && j in s.dirs
    case FailExit => s.pc.Failing? && s.pc.job in s.dirs
    case Close(j, code, _) =>
      && j in s.running && j !in s.leaders
      && (AtTop(s) || (s.pc.Stopping? && code == LOST))
    case WriteExit => s.pc.Closing? && s.pc.job in s.dirs
    case Prune(j) =>
      AtTop(s) && j in s.dirs && (s.dirs[j].exit.Some? || !s.dirs[j].jobFile)
    case Stop => AtTop(s)
    case Deadline => s.pc.Stopping?
    case Sweep(j, _) => s.pc.Sweeping? && j in s.running && j !in s.swept
    case SweepExit => s.pc.SweepClosing? && s.pc.job in s.dirs
    case Quit =>
      || (s.pc.Stopping? && s.running == {})
      || (s.pc.Sweeping? && s.running <= s.swept)
    case Crash => !s.pc.Down?
  }

  function Put(s: State, j: Job, d: Dir): State {
    s.(dirs := s.dirs[j := d])
  }

  /** write_result: never fatal, and a result that measured nothing is not written. */
  function WriteResult(s: State, j: Job, result: Option<Measured>): State {
    if j in s.dirs && result.Some? then Put(s, j, s.dirs[j].(result := result)) else s
  }

  /** The container goes down, by a crash or by the end of `main`. */
  function Ended(s: State): State {
    s.(pc := Down, listed := {}, running := {}, leaders := {}, writers := {}, swept := {})
  }

  function Apply(s: State, a: Action): State
    requires Enabled(s, a)
  {
    match a
    case Submit(j) =>
      Put(s, j, Dir(true, false, false, "", None, None)).(submitted := s.submitted + {j})
    case Cancel(j) => Put(s, j, s.dirs[j].(cancel := true))
    case SeeUnclaimed(j) => s.(withdrawing := s.withdrawing + {j})
    case Withdraw(j) => s.(dirs := s.dirs - {j}, withdrawing := s.withdrawing - {j})
    case LeaderExits(j) => s.(leaders := s.leaders - {j})
    case WritersGone(j) => s.(writers := s.writers - {j})
    case Writes(j, text) =>
      if j in s.dirs then Put(s, j, s.dirs[j].(log := s.dirs[j].log + text)) else s
    case Boot => s.(pc := Recovering)
    case See(j) => s.(pc := Seen(j))
    case Recover(note) =>
      var j := s.pc.job;
      Put(s, j, s.dirs[j].(log := s.dirs[j].log + note, exit := Some(LOST))).(pc := Recovering)
    case SeenExit => s.(pc := Recovering)
    case Recovered => s.(pc := Serving)
    case Look(j) => s.(pc := Looking(j))
    case List => s.(pc := Serving, listed := s.listed + {s.pc.job})
    case Unlisted => s.(pc := Serving)
    case Spawn(j) =>
      s.(pc := Spawned(j), listed := s.listed - {j}, leaders := s.leaders + {j}, writers := s.writers + {j},
         launches := s.launches[j := Count(s.launches, j) + 1])
    case Claim =>
      var j := s.pc.job;
      Put(s, j, s.dirs[j].(claimed := true)).(pc := Serving, running := s.running + {j},
                                               started := s.started + {j})
    case StartFails(j, note) =>
      Put(s, j, s.dirs[j].(log := s.dirs[j].log + note, claimed := true))
        .(pc := Failing(j), listed := s.listed - {j})
    case FailExit =>
      Put(s, s.pc.job, s.dirs[s.pc.job].(exit := Some(COULD_NOT_START))).(pc := Serving)
    case Close(j, code, result) => WriteResult(s, j, result).(pc := Closing(j, code, s.pc.Stopping?))
    case WriteExit =>
      var j := s.pc.job;
      Put(s, j, s.dirs[j].(exit := Some(s.pc.code)))
        .(pc := if s.pc.ending then Stopping else Serving, running := s.running - {j})
    case Prune(j) => s.(dirs := s.dirs - {j})
    case Stop => s.(pc := Stopping)
    case Deadline => s.(pc := Sweeping)
    case Sweep(j, result) => WriteResult(s, j, result).(pc := SweepClosing(j))
    case SweepExit =>
      var j := s.pc.job;
      Put(s, j, s.dirs[j].(exit := Some(LOST))).(pc := Sweeping, swept := s.swept + {j})
    case Quit => Ended(s)
    case Crash =>
      var s' := if s.pc.Spawned?
                then s.(cutShort := s.cutShort[s.pc.job := Count(s.cutShort, s.pc.job) + 1]) else s;
      Ended(s')
  }

  predicate Run(s: State, acts: seq<Action>)
    decreases acts
  {
    acts == [] || (Enabled(s, acts[0]) && Run(Apply(s, acts[0]), acts[1..]))
  }

  function Exec(s: State, acts: seq<Action>): State
    requires Run(s, acts)
    decreases acts
  {
    if acts == [] then s else Exec(Apply(s, acts[0]), acts[1..])
  }

  // ---------------------------------------------------------------------- the invariant

  predicate NamesOk(s: State) {
    && s.dirs.Keys <= s.submitted && s.running <= s.submitted && s.withdrawing <= s.submitted
    && s.listed <= s.submitted
  }

  /** `exit` implies `claimed`, and `exit` on a live process comes from the sweep alone. */
  predicate DirsOk(s: State) {
    forall j <- s.dirs ::
      && s.dirs[j].jobFile
      && (s.dirs[j].exit.Some? ==> s.dirs[j].claimed)
      && (s.dirs[j].exit.Some? && j in s.leaders ==> j in s.swept)
      && (j in s.started ==> s.dirs[j].claimed)
  }

  /** `running` is what the files say is unfinished, directory by directory. */
  predicate RunningOk(s: State) {
    && (forall j <- s.dirs ::
          (j in s.running && j !in s.swept ==> Unfinished(s.dirs[j]))
          && (Unfinished(s.dirs[j]) ==>
                s.pc.Down? || s.pc.Recovering? || s.pc.Seen? || j in s.running || s.pc == Failing(j)))
    && s.leaders <= s.running + (if s.pc.Spawned? then {s.pc.job} else {})
    && s.leaders <= s.writers
    && s.swept <= s.running
  }

  /** A job that was listed has not been claimed, and is listed only while jobs are being started. */
  predicate ListedOk(s: State) {
    && (s.listed != {} ==> s.pc.Serving? || s.pc.Looking? || s.pc.Spawned? || s.pc.Failing?)
    && (s.pc.Spawned? || s.pc.Failing? ==> s.pc.job !in s.listed)
    && s.listed !! s.running
    && forall j <- s.listed :: j in s.dirs ==> !s.dirs[j].claimed
  }

  predicate PcOk(s: State) {
    match s.pc
    case Down => s.running == {} && s.swept == {} && s.writers == {}
    case Recovering => s.running == {} && s.swept == {}
    case Seen(j) =>
      s.running == {} && s.swept == {} && j in s.submitted && (j in s.dirs ==> s.dirs[j].claimed)
    case Serving => s.swept == {}
    case Looking(j) => s.swept == {} && j in s.submitted && j !in s.running
    case Stopping => s.swept == {}
    case Spawned(j) =>
      s.swept == {} && j in s.submitted && j !in s.running && j !in s.started
      && (j in s.dirs ==> !s.dirs[j].claimed)
    case Failing(j) =>
      s.swept == {} && j in s.submitted && j !in s.running && (j in s.dirs ==> Unfinished(s.dirs[j]))
    case Closing(j, _, _) => s.swept == {} && j in s.running && j !in s.leaders
    case Sweeping => true
    case SweepClosing(j) => j in s.running && j !in s.swept
  }

  /** Every start of a process is the one that was claimed, or one a crash cut short. */
  ghost predicate LaunchesOk(s: State) {
    && s.started <= s.submitted
    && forall j: Job :: Count(s.launches, j) == Count(s.cutShort, j)
                        + (if j in s.started || s.pc == Spawned(j) then 1 else 0)
  }

  ghost predicate Valid(s: State) {
    NamesOk(s) && DirsOk(s) && RunningOk(s) && ListedOk(s) && PcOk(s) && LaunchesOk(s)
  }

  lemma ValidClient(s: State, a: Action)
    requires Valid(s) && Enabled(s, a)
    requires a.Submit? || a.Cancel? || a.SeeUnclaimed? || a.Withdraw?
    ensures Valid(Apply(s, a))
  {
  }

  lemma ValidProcess(s: State, a: Action)
    requires Valid(s) && Enabled(s, a)
    requires a.LeaderExits? || a.WritersGone? || a.Writes?
    ensures Valid(Apply(s, a))
  {
  }

  lemma ValidBoot(s: State, a: Action)
    requires Valid(s) && Enabled(s, a) && (a.Boot? || a.See? || a.Recover? || a.SeenExit? || a.Recovered?)
    ensures Valid(Apply(s, a))
  {
  }

  lemma ValidList(s: State, a: Action)
    requires Valid(s) && Enabled(s, a) && (a.Look? || a.List? || a.Unlisted?)
    ensures Valid(Apply(s, a))
  {
  }

  lemma ValidFails(s: State, a: Action)
    requires Valid(s) && Enabled(s, a) && (a.StartFails? || a.FailExit?)
    ensures Valid(Apply(s, a))
  {
  }

  lemma ValidStart(s: State, a: Action)
    requires Valid(s) && Enabled(s, a) && (a.Spawn? || a.Claim?)
    ensures Valid(Apply(s, a))
  {
  }

  lemma ValidClose(s: State, a: Action)
    requires Valid(s) && Enabled(s, a) && a.Close?
    ensures Valid(Apply(s, a))
  {
  }

  lemma ValidPrune(s: State, j: Job)
    requires Valid(s) && Enabled(s, Prune(j))
    ensures Valid(Apply(s, Prune(j)))
  {
  }

  lemma ValidExit(s: State)
    requires Valid(s) && Enabled(s, WriteExit)
    ensures Valid(Apply(s, WriteExit))
  {
  }

  lemma ValidSweep(s: State, a: Action)
    requires Valid(s) && Enabled(s, a) && a.Sweep?
    ensures Valid(Apply(s, a))
  {
  }

  lemma ValidSweepExit(s: State)
    requires Valid(s) && Enabled(s, SweepExit)
    ensures Valid(Apply(s, SweepExit))
  {
  }

  lemma ValidStop(s: State, a: Action)
    requires Valid(s) && Enabled(s, a) && (a.Stop? || a.Deadline?)
    ensures Valid(Apply(s, a))
  {
  }

  lemma ValidEnd(s: State, a: Action)
    requires Valid(s) && Enabled(s, a) && (a.Quit? || a.Crash?)
    ensures Valid(Apply(s, a))
  {
  }

  lemma ValidStep(s: State, a: Action)
    requires Valid(s) && Enabled(s, a)
    ensures Valid(Apply(s, a))
  {
    if a.Submit? || a.Cancel? || a.SeeUnclaimed? || a.Withdraw? { ValidClient(s, a); }
    else if a.LeaderExits? || a.WritersGone? || a.Writes? { ValidProcess(s, a); }
    else if a.Boot? || a.See? || a.Recover? || a.SeenExit? || a.Recovered? { ValidBoot(s, a); }
    else if a.Look? || a.List? || a.Unlisted? { ValidList(s, a); }
    else if a.StartFails? || a.FailExit? { ValidFails(s, a); }
    else if a.Spawn? || a.Claim? { ValidStart(s, a); }
    else { ValidClosing(s, a); }
  }

  lemma ValidClosing(s: State, a: Action)
    requires Valid(s) && Enabled(s, a)
    requires || a.Close? || a.WriteExit? || a.Prune? || a.Sweep? || a.SweepExit?
             || a.Stop? || a.Deadline? || a.Quit? || a.Crash?
    ensures Valid(Apply(s, a))
  {
    if a.Close? { ValidClose(s, a); }
    else if a.WriteExit? { ValidExit(s); }
    else if a.Prune? { ValidPrune(s, a.j); }
    else if a.Sweep? { ValidSweep(s, a); }
    else if a.SweepExit? { ValidSweepExit(s); }
    else if a.Stop? || a.Deadline? { ValidStop(s, a); }
    else { ValidEnd(s, a); }
  }

  lemma {:induction false} ValidRun(s: State, acts: seq<Action>)
    requires Valid(s) && Run(s, acts)
    ensures Valid(Exec(s, acts))
    decreases acts
  {
    if acts != [] {
      ValidStep(s, acts[0]);
      ValidRun(Apply(s, acts[0]), acts[1..]);
    }
  }

  // ---------------------------------------------------------------------- what the files say

  function UnfinishedJobs(s: State): set<Job> {
    set j | j in s.dirs && Unfinished(s.dirs[j])
  }

  /** At every point of the runner's loop between two jobs, the directories that are claimed and
      have no `exit` are those of the jobs in `running`; so the two sets agree exactly while no
      running job's directory was taken away. */
  lemma BoundaryIff(s: State)
    requires Valid(s) && (s.pc.Serving? || s.pc.Stopping?)
    ensures UnfinishedJobs(s) == s.running * s.dirs.Keys
    ensures UnfinishedJobs(s) == s.running <==> s.running <= s.dirs.Keys
  {
  }

  /** Across any run, crashes and restarts included: an `exit` code is never changed while its
      directory stands, a removed directory never comes back, and a job's starts are the ones a crash
      cut short before their `claimed`, and at most one more: the one that was claimed, or is about
      to be. */
  lemma SpoolSafe(acts: seq<Action>)
    requires Run(Start(), acts)
    ensures
      var s := Exec(Start(), acts);
      && Valid(s)
      && (forall j <- s.dirs :: s.dirs[j].exit.Some? ==> s.dirs[j].claimed)
      && (forall j: Job :: Count(s.launches, j) == Count(s.cutShort, j)
                             + (if j in s.started || s.pc == Spawned(j) then 1 else 0))
      && (forall more, j :: Run(s, more) && j in s.submitted && j in Exec(s, more).dirs ==>
            j in s.dirs && Onward(s.dirs[j], Exec(s, more).dirs[j]))
  {
    var s := Exec(Start(), acts);
    ValidRun(Start(), acts);
    forall more, j | Run(s, more) && j in s.submitted && j in Exec(s, more).dirs
      ensures j in s.dirs && Onward(s.dirs[j], Exec(s, more).dirs[j])
    {
      OnwardRun(s, more, j);
    }
  }

  /** How a directory may change under its reader: the log grows, `exit` stays, and what is beside
      it is complete once `exit` is there. */
  predicate Onward(d: Dir, d': Dir) {
    && d.log <= d'.log
    && (d.claimed ==> d'.claimed)
    && (d.exit.Some? ==> d'.exit == d.exit && d'.result == d.result)
  }

  lemma OnwardStep(s: State, a: Action, j: Job)
    requires Valid(s) && Enabled(s, a) && j in s.submitted
    ensures j in Apply(s, a).submitted
    ensures j in Apply(s, a).dirs ==> j in s.dirs && Onward(s.dirs[j], Apply(s, a).dirs[j])
  {
    if a.Close? || a.Sweep? { OnwardResult(s, a, j); }
    else if a.WriteExit? || a.SweepExit? { OnwardExit(s, a, j); }
    else if a.Recover? || a.StartFails? || a.FailExit? || a.Claim? { OnwardClaiming(s, a, j); }
  }

  lemma OnwardResult(s: State, a: Action, j: Job)
    requires Valid(s) && Enabled(s, a) && (a.Close? || a.Sweep?)
    ensures j in Apply(s, a).dirs ==> j in s.dirs && Onward(s.dirs[j], Apply(s, a).dirs[j])
  {
  }

  lemma OnwardExit(s: State, a: Action, j: Job)
    requires Valid(s) && Enabled(s, a) && (a.WriteExit? || a.SweepExit?)
    ensures j in Apply(s, a).dirs ==> j in s.dirs && Onward(s.dirs[j], Apply(s, a).dirs[j])
  {
  }

  lemma OnwardClaiming(s: State, a: Action, j: Job)
    requires Valid(s) && Enabled(s, a) && (a.Recover? || a.StartFails? || a.FailExit? || a.Claim?)
    ensures j in Apply(s, a).dirs ==> j in s.dirs && Onward(s.dirs[j], Apply(s, a).dirs[j])
  {
  }

  lemma {:induction false} OnwardRun(s: State, acts: seq<Action>, j: Job)
    requires Valid(s) && Run(s, acts) && j in s.submitted
    ensures j in Exec(s, acts).submitted
    ensures j in Exec(s, acts).dirs ==> j in s.dirs && Onward(s.dirs[j], Exec(s, acts).dirs[j])
    decreases acts
  {
    if acts != [] {
      ValidStep(s, acts[0]);
      OnwardStep(s, acts[0], j);
      OnwardRun(Apply(s, acts[0]), acts[1..], j);
    }
  }

  /** A job's `cancel` stands exactly when some client has cancelled it. */
  lemma CancelIff(acts: seq<Action>, j: Job)
    requires Run(Start(), acts) && j in Exec(Start(), acts).dirs
    ensures Exec(Start(), acts).dirs[j].cancel <==> Cancel(j) in acts
  {
    CancelRun(Start(), acts, j);
  }

  lemma {:induction false} CancelRun(s: State, acts: seq<Action>, j: Job)
    requires Valid(s) && Run(s, acts) && j in Exec(s, acts).dirs && (j in s.submitted ==> j in s.dirs)
    ensures Exec(s, acts).dirs[j].cancel <==> (j in s.dirs && s.dirs[j].cancel) || Cancel(j) in acts
    decreases acts
  {
    if acts != [] {
      var t := Apply(s, acts[0]);
      ValidStep(s, acts[0]);
      if j in t.submitted { OnwardRun(t, acts[1..], j); }
      if j in t.dirs { CancelStep(s, acts[0], j); } else { assert acts[0] != Cancel(j) && j !in s.dirs; }
      CancelRun(t, acts[1..], j);
      assert acts == [acts[0]] + acts[1..];
    }
  }

  lemma CancelStep(s: State, a: Action, j: Job)
    requires NamesOk(s) && Enabled(s, a) && j in Apply(s, a).dirs
    ensures Apply(s, a).dirs[j].cancel <==> (j in s.dirs && s.dirs[j].cancel) || a == Cancel(j)
  {
    if !ClientOrProcess(a) { RunnerCancelsNothing(s, a, j); }
  }

  lemma RunnerCancelsNothing(s: State, a: Action, j: Job)
    requires Enabled(s, a) && j in Apply(s, a).dirs && !ClientOrProcess(a)
    ensures j in s.dirs && Apply(s, a).dirs[j].cancel == s.dirs[j].cancel
  {
  }

  /** `prune` never removes a job that is pending or running. */
  lemma PruneSpares(s: State, j: Job)
    requires Valid(s) && Enabled(s, Prune(j))
    ensures !Pending(s, j) && j !in s.running
  {
  }

  // ---------------------------------------------------------------------- a removal cut short

  /** What a job's directory holds. Prune is one step above; rmtree unlinks one entry after another,
      in whatever order the directory has them, and a crash may come between any two. */
  datatype Entry = JobJson | Claimed | Exit | Log | Result | Cancelled

  /** The entries of a finished job's directory that are left after the first n were unlinked. */
  function Left(order: seq<Entry>, n: nat): set<Entry>
    requires n <= |order|
  {
    set e | e in order[n..]
  }

  /** What the next boot would take for a job that never started, or for one that was cut short. */
  predicate Resurrected(left: set<Entry>) {
    (JobJson in left && Claimed !in left) || (Claimed in left && Exit !in left)
  }

  predicate Precedes(order: seq<Entry>, a: Entry, b: Entry) {
    forall i, k :: 0 <= i < |order| && 0 <= k < |order| && order[i] == a && order[k] == b ==> i < k
  }

  /** A removal that a crash cuts short leaves nothing to be started or closed again exactly when
      `job.json` is unlinked before `claimed`, and `claimed` before `exit`. */
  lemma RemovalSafeIff(order: seq<Entry>)
    requires (forall i, k :: 0 <= i < k < |order| ==> order[i] != order[k])
    requires JobJson in order && Claimed in order && Exit in order
    ensures (forall n: nat :: n <= |order| ==> !Resurrected(Left(order, n)))
            <==> Precedes(order, JobJson, Claimed) && Precedes(order, Claimed, Exit)
  {
    var j :| 0 <= j < |order| && order[j] == JobJson;
    var c :| 0 <= c < |order| && order[c] == Claimed;
    var x :| 0 <= x < |order| && order[x] == Exit;
    forall n: nat | n <= |order|
      ensures (JobJson in Left(order, n) <==> n <= j) && (Claimed in Left(order, n) <==> n <= c)
      ensures Exit in Left(order, n) <==> n <= x
    {
      LeftIff(order, n, j);
      LeftIff(order, n, c);
      LeftIff(order, n, x);
    }
    assert !(j < c) ==> Resurrected(Left(order, c + 1));
    assert !(c < x) ==> Resurrected(Left(order, x + 1));
  }

  lemma LeftIff(order: seq<Entry>, n: nat, k: nat)
    requires (forall i, k :: 0 <= i < k < |order| ==> order[i] != order[k]) && n <= |order| && k < |order|
    ensures order[k] in Left(order, n) <==> n <= k
  {
    if n <= k { assert order[n..][k - n] == order[k]; }
  }

  // ---------------------------------------------------------------------- when a log is final

  /** A job that is closed stays out of the log's writers once it is out of them. */
  lemma QuietLogStep(s: State, a: Action, j: Job)
    requires Valid(s) && Enabled(s, a) && j in s.dirs && s.dirs[j].exit.Some? && j !in s.writers
    requires j in Apply(s, a).dirs
    ensures
      var t := Apply(s, a);
      t.dirs[j].exit.Some? && t.dirs[j].log == s.dirs[j].log && j !in t.writers
  {
    OnwardStep(s, a, j);
    if a.Writes? || a.Recover? || a.StartFails? || a.Spawn? { QuietLogWrite(s, a, j); }
  }

  lemma QuietLogWrite(s: State, a: Action, j: Job)
    requires DirsOk(s) && ListedOk(s) && PcOk(s) && Enabled(s, a)
    requires j in s.dirs && s.dirs[j].exit.Some? && j !in s.writers
    requires a.Writes? || a.Recover? || a.StartFails? || a.Spawn?
    ensures j in Apply(s, a).dirs && Apply(s, a).dirs[j].log == s.dirs[j].log && j !in Apply(s, a).writers
  {
  }

  lemma {:induction false} QuietLogRun(s: State, acts: seq<Action>, j: Job)
    requires Valid(s) && Run(s, acts) && j in s.dirs && s.dirs[j].exit.Some? && j !in s.writers
    requires j in Exec(s, acts).dirs
    ensures Exec(s, acts).dirs[j].log == s.dirs[j].log
    decreases acts
  {
    if acts != [] {
      var t := Apply(s, acts[0]);
      ValidStep(s, acts[0]);
      OnwardStep(s, acts[0], j);
      OnwardRun(t, acts[1..], j);
      QuietLogStep(s, acts[0], j);
      QuietLogRun(t, acts[1..], j);
    }
  }

  /** The run leaves the job's log as it is, for as long as its directory stands. */
  predicate KeepsLog(s: State, acts: seq<Action>, j: Job)
    requires j in s.dirs
  {
    Run(s, acts) && j in Exec(s, acts).dirs ==> Exec(s, acts).dirs[j].log == s.dirs[j].log
  }

  /** A closed job's log is final exactly when no process holds it any more. `exit` does not say so:
      the runner waits for the process it started, not for those that one leaves behind. */
  lemma LogFinalIff(s: State, j: Job)
    requires Valid(s) && j in s.dirs && s.dirs[j].exit.Some?
    ensures j !in s.writers <==> forall acts :: KeepsLog(s, acts, j)
  {
    if j in s.writers {
      LateWrite(s, j);
      assert !KeepsLog(s, [Writes(j, "late")], j);
    } else {
      forall acts | Run(s, acts) && j in Exec(s, acts).dirs ensures KeepsLog(s, acts, j) {
        QuietLogRun(s, acts, j);
      }
      assert forall acts :: !Run(s, acts) || j !in Exec(s, acts).dirs ==> KeepsLog(s, acts, j);
    }
  }

  lemma LateWrite(s: State, j: Job)
    requires j in s.writers && j in s.dirs
    ensures Run(s, [Writes(j, "late")]) && Exec(s, [Writes(j, "late")]) == Apply(s, Writes(j, "late"))
    ensures Apply(s, Writes(j, "late")).dirs[j].log == s.dirs[j].log + "late" != s.dirs[j].log
  {
    One(s, Writes(j, "late"), Apply(s, Writes(j, "late")));
    assert |s.dirs[j].log + "late"| > |s.dirs[j].log|;
  }

  // ---------------------------------------------------------------------- what is not enforced

  /** The job the runner's thread is in the middle of. */
  function Doing(s: State): set<Job> {
    if s.pc.Seen? || s.pc.Spawned? || s.pc.Failing? || s.pc.Closing? || s.pc.SweepClosing? then {s.pc.job} else {}
  }

  /** The job `pending` is between its two looks at: gone, it is as good as unclaimed. */
  function LookedAt(s: State): set<Job> {
    if s.pc.Looking? then {s.pc.job} else {}
  }

  /** The jobs whose directory the runner must still find: those in `running`, the one it is in the
      middle of, and those `pending` listed or is looking at, which this pass will open. */
  function Needed(s: State): set<Job> {
    s.running - s.swept + Doing(s) + LookedAt(s) + s.listed
  }

  /** A directory the runner must still find is gone. */
  predicate Doomed(s: State) {
    !(Needed(s) <= s.dirs.Keys)
  }

  lemma DoomedStep(s: State, a: Action)
    requires Valid(s) && Doomed(s) && Enabled(s, a) && !a.Crash?
    ensures Doomed(Apply(s, a))
  {
    var j :| j in Needed(s) && j !in s.dirs;
    assert j in Needed(Apply(s, a)) && j !in Apply(s, a).dirs;
  }

  predicate CrashFree(acts: seq<Action>) {
    forall a <- acts :: !a.Crash?
  }

  lemma {:induction false} DoomedRun(s: State, acts: seq<Action>)
    requires Valid(s) && Doomed(s) && Run(s, acts) && CrashFree(acts)
    ensures Doomed(Exec(s, acts)) && !Exec(s, acts).pc.Down?
    decreases acts
  {
    ValidRun(s, acts);
    if acts != [] {
      assert acts[0] in acts;
      ValidStep(s, acts[0]);
      DoomedStep(s, acts[0]);
      DoomedRun(Apply(s, acts[0]), acts[1..]);
    }
  }

  /** How far the runner is from its end, when nothing but its own steps happens. */
  function Distance(s: State): (int, nat) {
    match s.pc
    case Down => (0, 0)
    case Sweeping => (1, 2 * |s.running - s.swept| + 1)
    case SweepClosing(_) => (1, 2 * |s.running - s.swept|)
    case Stopping => (2, 0)
    case Serving => (3, 2 * |s.listed|)
    case Looking(_) => (3, 2 * |s.listed| + 3)
    case Spawned(_) => (3, 2 * |s.listed| + 1)
    case Failing(_) => (3, 2 * |s.listed| + 1)
    case Closing(_, _, _) => (4, 0)
    case Seen(j) => (5, 2 * |UnfinishedJobs(s)| + if j in UnfinishedJobs(s) then 0 else 2)
    case Recovering => (5, 2 * |UnfinishedJobs(s)| + 1)
  }

  predicate Nearer(t: State, s: State) {
    Distance(t).0 < Distance(s).0 || (Distance(t).0 == Distance(s).0 && Distance(t).1 < Distance(s).1)
  }

  /** A step of the runner's own that brings it nearer its end and needs no directory that is gone. */
  ghost predicate Advances(s: State, a: Action) {
    Enabled(s, a) && !a.Crash? && !Doomed(Apply(s, a)) && Nearer(Apply(s, a), s)
  }

  lemma RecoverAdvances(s: State)
    requires s.pc.Seen? && s.running == {} && s.listed == {}
    requires s.pc.job in s.dirs && Unfinished(s.dirs[s.pc.job])
    ensures Advances(s, Recover(""))
  {
    var left := UnfinishedJobs(s);
    assert UnfinishedJobs(Apply(s, Recover(""))) == left - {s.pc.job} && |left - {s.pc.job}| < |left|;
  }

  lemma SeenExitAdvances(s: State)
    requires s.pc.Seen? && s.running == {} && s.listed == {}
    requires s.pc.job in s.dirs && s.dirs[s.pc.job].exit.Some?
    ensures Advances(s, SeenExit)
  {
    assert UnfinishedJobs(Apply(s, SeenExit)) == UnfinishedJobs(s);
  }

  lemma SeenStep(s: State) returns (a: Action)
    requires s.pc.Seen? && s.running == {} && s.listed == {} && s.pc.job in s.dirs && s.dirs[s.pc.job].claimed
    ensures Advances(s, a)
  {
    if s.dirs[s.pc.job].exit.Some? {
      a := SeenExit;
      SeenExitAdvances(s);
    } else {
      a := Recover("");
      RecoverAdvances(s);
    }
  }

  lemma SeeAdvances(s: State, j: Job)
    requires s.pc.Recovering? && s.running == {} && s.listed == {} && j in UnfinishedJobs(s)
    ensures Advances(s, See(j))
  {
    assert UnfinishedJobs(Apply(s, See(j))) == UnfinishedJobs(s);
  }

  lemma RecoveredAdvances(s: State)
    requires s.pc.Recovering? && s.running == {} && s.listed == {} && UnfinishedJobs(s) == {}
    ensures Advances(s, Recovered)
  {
    forall j | j in s.dirs ensures !Unfinished(s.dirs[j]) { assert j !in UnfinishedJobs(s); }
  }

  lemma RecoverStep(s: State) returns (a: Action)
    requires s.pc.Recovering? && s.running == {} && s.listed == {}
    ensures Advances(s, a)
  {
    if UnfinishedJobs(s) == {} {
      a := Recovered;
      RecoveredAdvances(s);
    } else {
      var j :| j in UnfinishedJobs(s);
      a := See(j);
      SeeAdvances(s, j);
    }
  }

  lemma SpawnAdvances(s: State, j: Job)
    requires s.pc.Serving? && Needed(s) <= s.dirs.Keys && j in s.listed
    ensures Advances(s, Spawn(j))
  {
    assert j in Needed(s);
    SpawnNearer(s, j);
    assert Needed(Apply(s, Spawn(j))) <= Needed(s);
  }

  lemma SpawnNearer(s: State, j: Job)
    requires s.pc.Serving? && j in s.listed && j in s.dirs
    ensures Nearer(Apply(s, Spawn(j)), s)
  {
    assert |s.listed - {j}| < |s.listed|;
  }

  lemma StopAdvances(s: State)
    requires AtTop(s) && Needed(s) <= s.dirs.Keys
    ensures Advances(s, Stop)
  {
    assert Needed(Apply(s, Stop)) == Needed(s);
  }

  lemma ServeStep(s: State) returns (a: Action)
    requires s.pc.Serving? && Needed(s) <= s.dirs.Keys
    ensures Advances(s, a)
  {
    if s.listed == {} {
      a := Stop;
      StopAdvances(s);
    } else {
      var j :| j in s.listed;
      a := Spawn(j);
      SpawnAdvances(s, j);
    }
  }

  lemma LookStep(s: State) returns (a: Action)
    requires s.pc.Looking? && Needed(s) <= s.dirs.Keys
    ensures Advances(s, a)
  {
    assert s.pc.job in Needed(s);
    a := if s.dirs[s.pc.job].claimed then Unlisted else List;
    assert Needed(Apply(s, a)) <= Needed(s);
    assert a.List? ==> |s.listed + {s.pc.job}| <= |s.listed| + 1;
  }

  lemma ClaimAdvances(s: State)
    requires s.pc.Spawned? && Needed(s) <= s.dirs.Keys
    ensures Advances(s, Claim)
  {
    assert s.pc.job in Needed(s);
    assert Needed(Apply(s, Claim)) <= Needed(s);
  }

  lemma FailExitAdvances(s: State)
    requires s.pc.Failing? && Needed(s) <= s.dirs.Keys
    ensures Advances(s, FailExit)
  {
    assert s.pc.job in Needed(s);
    assert Needed(Apply(s, FailExit)) <= Needed(s);
  }

  lemma WriteExitAdvances(s: State)
    requires s.pc.Closing? && Needed(s) <= s.dirs.Keys
    ensures Advances(s, WriteExit)
  {
    assert s.pc.job in Needed(s);
    assert Needed(Apply(s, WriteExit)) <= Needed(s);
  }

  lemma SweepAdvances(s: State, j: Job)
    requires s.pc.Sweeping? && Needed(s) <= s.dirs.Keys && j in s.running - s.swept
    ensures Advances(s, Sweep(j, None))
  {
    assert j in Needed(s);
  }

  lemma SweepExitAdvances(s: State)
    requires s.pc.SweepClosing? && Needed(s) <= s.dirs.Keys && s.pc.job in s.running - s.swept
    ensures Advances(s, SweepExit)
  {
    assert s.pc.job in Needed(s);
    SweepExitNearer(s);
    assert Needed(Apply(s, SweepExit)) <= Needed(s);
  }

  lemma SweepExitNearer(s: State)
    requires s.pc.SweepClosing? && s.pc.job in s.dirs && s.pc.job in s.running - s.swept
    ensures Nearer(Apply(s, SweepExit), s)
  {
    var left := s.running - s.swept;
    assert s.running - Apply(s, SweepExit).swept == left - {s.pc.job};
    assert |left - {s.pc.job}| < |left|;
  }

  lemma QuitAdvances(s: State)
    requires s.pc.Sweeping? && s.running <= s.swept
    ensures Advances(s, Quit)
  {
  }

  lemma SweepStep(s: State) returns (a: Action)
    requires s.pc.Sweeping? && Needed(s) <= s.dirs.Keys
    ensures Advances(s, a)
  {
    if s.running <= s.swept {
      a := Quit;
      QuitAdvances(s);
    } else {
      var j :| j in s.running && j !in s.swept;
      a := Sweep(j, None);
      SweepAdvances(s, j);
    }
  }

  lemma RecoveringStep(s: State) returns (a: Action)
    requires PcOk(s) && ListedOk(s) && !Doomed(s) && (s.pc.Recovering? || s.pc.Seen?)
    ensures Advances(s, a)
  {
    if s.pc.Seen? {
      assert s.pc.job in Needed(s);
      a := SeenStep(s);
    } else {
      a := RecoverStep(s);
    }
  }

  lemma OwnStep(s: State) returns (a: Action)
    requires PcOk(s) && ListedOk(s) && !Doomed(s) && !s.pc.Down?
    ensures Advances(s, a)
  {
    match s.pc {
      case Recovering => a := RecoveringStep(s);
      case Seen(_) => a := RecoveringStep(s);
      case Serving => a := ServeStep(s);
      case Looking(_) => a := LookStep(s);
      case Stopping => a := Deadline; DeadlineAdvances(s);
      case Spawned(_) => a := Claim; ClaimAdvances(s);
      case Failing(_) => a := FailExit; FailExitAdvances(s);
      case Closing(_, _, _) => a := WriteExit; WriteExitAdvances(s);
      case SweepClosing(_) => a := SweepExit; SweepExitAdvances(s);
      case Sweeping => a := SweepStep(s);
    }
  }

  lemma DeadlineAdvances(s: State)
    requires s.pc.Stopping? && !Doomed(s)
    ensures Advances(s, Deadline)
  {
    assert Needed(Apply(s, Deadline)) == Needed(s);
  }

  /** A state from which the runner is not doomed has an orderly end. */
  lemma {:induction false} OrderlyEnd(s: State) returns (acts: seq<Action>)
    requires Valid(s) && !Doomed(s)
    ensures Run(s, acts) && CrashFree(acts) && Exec(s, acts).pc.Down?
    decreases Distance(s).0, Distance(s).1
  {
    acts := [];
    if !s.pc.Down? {
      var a := OwnStep(s);
      ValidStep(s, a);
      var rest := OrderlyEnd(Apply(s, a));
      acts := [a] + rest;
      Then(s, a, Apply(s, a), rest);
    }
  }

  /** A directory the runner still needs is gone exactly when it can end in no way but by a crash,
      which takes every other job with it. */
  lemma DoomedIff(s: State)
    requires Valid(s)
    ensures Doomed(s) <==> forall acts :: Run(s, acts) && CrashFree(acts) ==> !Exec(s, acts).pc.Down?
  {
    if Doomed(s) {
      forall acts | Run(s, acts) && CrashFree(acts) ensures !Exec(s, acts).pc.Down? {
        DoomedRun(s, acts);
      }
    } else {
      var acts := OrderlyEnd(s);
    }
  }

  /** A withdrawal is harmless exactly when the runner has no more use for the directory: the job is
      neither running, nor looked at or listed for this pass, nor being started, closed or recovered
      at that moment. The client looked for `claimed` earlier, so nothing ensures it. */
  lemma WithdrawSafeIff(s: State, j: Job)
    requires Valid(s) && !Doomed(s) && Enabled(s, Withdraw(j))
    ensures !Doomed(Apply(s, Withdraw(j))) <==> j !in Needed(s)
    ensures !Doomed(Apply(s, Withdraw(j))) <==>
            exists acts :: Run(Apply(s, Withdraw(j)), acts) && CrashFree(acts)
                           && Exec(Apply(s, Withdraw(j)), acts).pc.Down?
  {
    ValidStep(s, Withdraw(j));
    DoomedIff(Apply(s, Withdraw(j)));
  }

  /** Nothing but a crash takes the runner's thread from where it is, or the listed job from its list;
      and what it is looking at gets listed. */
  ghost predicate Stuck(s: State, j: Job) {
    forall acts :: Run(s, acts) && CrashFree(acts) ==>
      var t := Exec(s, acts);
      && !t.pc.Down? && (j in Doing(s) ==> t.pc == s.pc)
      && (j in s.listed + LookedAt(s) ==> j in t.listed + LookedAt(t))
  }

  /** Withdrawn between the two looks of `pending`: gone, it counts as unclaimed, whatever it was. */
  lemma WithdrawWhileListing(s: State, j: Job)
    requires Valid(s) && Enabled(s, Look(j)) && Enabled(s, Withdraw(j))
    ensures
      var acts := [Look(j), Withdraw(j), List];
      Run(s, acts) && var t := Exec(s, acts); t.pc.Serving? && j in t.listed && Doomed(t) && Stuck(t, j)
  {
    var s1 := Apply(s, Look(j));
    var s2 := Apply(s1, Withdraw(j));
    var t := Apply(s2, List);
    Three(s, Look(j), s1, Withdraw(j), s2, List, t);
    ValidRun(s, [Look(j), Withdraw(j), List]);
    StuckWithout(t, j);
  }

  /** Withdrawn after `pending` listed it and before its process starts: opening its log will raise. */
  lemma WithdrawWhenListed(s: State, j: Job)
    requires Valid(s) && s.pc.Serving? && Pending(s, j)
    ensures
      var acts := [SeeUnclaimed(j), Look(j), List, Withdraw(j)];
      Run(s, acts) && var t := Exec(s, acts); t.pc.Serving? && j in t.listed && Doomed(t) && Stuck(t, j)
  {
    var s1 := Apply(s, SeeUnclaimed(j));
    var s2 := Apply(s1, Look(j));
    var s3 := Apply(s2, List);
    var t := Apply(s3, Withdraw(j));
    Four(s, SeeUnclaimed(j), s1, Look(j), s2, List, s3, Withdraw(j), t);
    ValidRun(s, [SeeUnclaimed(j), Look(j), List, Withdraw(j)]);
    StuckWithout(t, j);
  }

  /** Between the start of the process and its `claimed`: writing `claimed` will raise. */
  lemma WithdrawWhileStarting(s: State, j: Job)
    requires Valid(s) && s.pc.Serving? && Pending(s, j)
    ensures
      var acts := [SeeUnclaimed(j)] + Begun(j) + [Withdraw(j)];
      Run(s, acts) && var t := Exec(s, acts); t.pc == Spawned(j) && Doomed(t) && Stuck(t, j)
  {
    var s1 := Apply(s, SeeUnclaimed(j));
    ValidStep(s, SeeUnclaimed(j));
    var s2 := BegunRun(s1, j);
    var t := Apply(s2, Withdraw(j));
    One(s2, Withdraw(j), t);
    Joined(s1, Begun(j), [Withdraw(j)]);
    Then(s, SeeUnclaimed(j), s1, Begun(j) + [Withdraw(j)]);
    assert [SeeUnclaimed(j)] + (Begun(j) + [Withdraw(j)]) == [SeeUnclaimed(j)] + Begun(j) + [Withdraw(j)];
    ValidRun(s, [SeeUnclaimed(j)] + Begun(j) + [Withdraw(j)]);
    StuckWithout(t, j);
  }

  /** Withdrawn between the two looks of `recover`, or before its writes: opening the log will raise. */
  lemma WithdrawWhileRecovering(s: State, j: Job)
    requires Valid(s) && Enabled(s, See(j)) && Enabled(s, Withdraw(j))
    ensures
      var acts := [See(j), Withdraw(j)];
      Run(s, acts) && var t := Exec(s, acts); t.pc == Seen(j) && Doomed(t) && Stuck(t, j)
  {
    var s1 := Apply(s, See(j));
    var t := Apply(s1, Withdraw(j));
    One(s1, Withdraw(j), t);
    Then(s, See(j), s1, [Withdraw(j)]);
    assert [See(j)] + [Withdraw(j)] == [See(j), Withdraw(j)];
    ValidRun(s, [See(j), Withdraw(j)]);
    StuckWithout(t, j);
  }

  lemma StuckWithout(s: State, j: Job)
    requires Valid(s) && j !in s.dirs && j in Needed(s)
    ensures Doomed(s) && Stuck(s, j)
  {
    forall acts | Run(s, acts) && CrashFree(acts)
      ensures !Exec(s, acts).pc.Down? && (j in Doing(s) ==> Exec(s, acts).pc == s.pc)
      ensures j in s.listed + LookedAt(s) ==> j in Exec(s, acts).listed + LookedAt(Exec(s, acts))
    {
      DoomedRun(s, acts);
      if j in Doing(s) { StuckRun(s, acts); }
      if j in s.listed + LookedAt(s) { StillListed(s, acts, j); }
    }
  }

  lemma {:induction false} StillListed(s: State, acts: seq<Action>, j: Job)
    requires Valid(s) && j in s.listed + LookedAt(s) && j !in s.dirs && Run(s, acts) && CrashFree(acts)
    ensures j in Exec(s, acts).listed + LookedAt(Exec(s, acts))
    decreases acts
  {
    if acts != [] {
      assert acts[0] in acts;
      var t := Apply(s, acts[0]);
      ValidStep(s, acts[0]);
      assert j in t.listed + LookedAt(t) && j !in t.dirs;
      StillListed(t, acts[1..], j);
    }
  }

  lemma {:induction false} StuckRun(s: State, acts: seq<Action>)
    requires Valid(s) && !(Doing(s) <= s.dirs.Keys) && Run(s, acts) && CrashFree(acts)
    ensures Exec(s, acts).pc == s.pc
    decreases acts
  {
    if acts != [] {
      assert acts[0] in acts;
      ValidStep(s, acts[0]);
      StuckStep(s, acts[0]);
      StuckRun(Apply(s, acts[0]), acts[1..]);
    }
  }

  predicate ClientOrProcess(a: Action) {
    || a.Submit? || a.Cancel? || a.SeeUnclaimed? || a.Withdraw?
    || a.LeaderExits? || a.WritersGone? || a.Writes?
  }

  lemma OnlyOthersMove(s: State, a: Action)
    requires !(Doing(s) <= s.dirs.Keys) && Enabled(s, a) && !a.Crash?
    ensures ClientOrProcess(a)
  {
  }

  lemma StuckStep(s: State, a: Action)
    requires Valid(s) && !(Doing(s) <= s.dirs.Keys) && Enabled(s, a) && !a.Crash?
    ensures Apply(s, a).pc == s.pc && !(Doing(s) <= Apply(s, a).dirs.Keys)
  {
    OnlyOthersMove(s, a);
  }

  /** `a` leads from s to t. */
  predicate Step(s: State, a: Action, t: State) {
    Enabled(s, a) && t == Apply(s, a)
  }

  lemma Then(s: State, a: Action, t: State, rest: seq<Action>)
    requires Step(s, a, t) && Run(t, rest)
    ensures Run(s, [a] + rest) && Exec(s, [a] + rest) == Exec(t, rest)
  {
    assert ([a] + rest)[1..] == rest;
  }

  lemma One(s: State, a: Action, t: State)
    requires Step(s, a, t)
    ensures Run(s, [a]) && Exec(s, [a]) == t
  {
    Then(s, a, t, []);
    assert [a] + [] == [a];
  }

  lemma Three(s: State, a: Action, t: State, b: Action, u: State, c: Action, v: State)
    requires Step(s, a, t) && Step(t, b, u) && Step(u, c, v)
    ensures Run(s, [a, b, c]) && Exec(s, [a, b, c]) == v
  {
    One(u, c, v);
    Then(t, b, u, [c]);
    Then(s, a, t, [b] + [c]);
    assert [a] + ([b] + [c]) == [a, b, c];
  }

  lemma Four(s: State, a: Action, t: State, b: Action, u: State, c: Action, v: State, d: Action, w: State)
    requires Step(s, a, t) && Step(t, b, u) && Step(u, c, v) && Step(v, d, w)
    ensures Run(s, [a, b, c, d]) && Exec(s, [a, b, c, d]) == w
  {
    Three(t, b, u, c, v, d, w);
    Then(s, a, t, [b, c, d]);
    assert [a] + [b, c, d] == [a, b, c, d];
  }

  /** From a job that is pending to one whose process runs. */
  function Begun(j: Job): (acts: seq<Action>)
    ensures |acts| == 3
  {
    [Look(j), List, Spawn(j)]
  }

  lemma BegunRun(s: State, j: Job) returns (t: State)
    requires Valid(s) && s.pc.Serving? && Pending(s, j)
    ensures Run(s, Begun(j)) && Exec(s, Begun(j)) == t && t.pc == Spawned(j) && t.dirs == s.dirs
    ensures t.listed == s.listed - {j} && t.running == s.running && t.swept == {}
    ensures t.leaders == s.leaders + {j} && t.writers == s.writers + {j} && t.withdrawing == s.withdrawing
    ensures Count(t.launches, j) == Count(s.launches, j) + 1
  {
    var s1 := Apply(s, Look(j));
    var s2 := Apply(s1, List);
    t := Apply(s2, Spawn(j));
    Three(s, Look(j), s1, List, s2, Spawn(j), t);
  }

  /** A claim between the look and the removal: the job runs on without its directory, the runner
      cannot write its exit, and will end by a crash. */
  lemma WithdrawRace(s: State, j: Job)
    requires Valid(s) && s.pc.Serving? && Pending(s, j)
    ensures
      var acts := [SeeUnclaimed(j)] + Begun(j) + [Claim, Withdraw(j)];
      Run(s, acts) && var t := Exec(s, acts);
      && t.pc.Serving? && j in t.running && j !in t.dirs && NeverExits(t, j) && Doomed(t)
  {
    var s1 := Apply(s, SeeUnclaimed(j));
    ValidStep(s, SeeUnclaimed(j));
    var s2 := BegunRun(s1, j);
    var t := ClaimedAndRemoved(s2, j);
    Joined(s1, Begun(j), [Claim, Withdraw(j)]);
    Then(s, SeeUnclaimed(j), s1, Begun(j) + [Claim, Withdraw(j)]);
    assert [SeeUnclaimed(j)] + (Begun(j) + [Claim, Withdraw(j)])
        == [SeeUnclaimed(j)] + Begun(j) + [Claim, Withdraw(j)];
  }

  lemma ClaimedAndRemoved(s: State, j: Job) returns (t: State)
    requires s.pc == Spawned(j) && j in s.dirs && j in s.withdrawing && s.swept == {}
    ensures Run(s, [Claim, Withdraw(j)]) && Exec(s, [Claim, Withdraw(j)]) == t
    ensures t.pc.Serving? && j in t.running && j !in t.dirs && NeverExits(t, j) && Doomed(t)
  {
    var s1 := Apply(s, Claim);
    t := Removed(s1, j);
    One(s1, Withdraw(j), t);
    Then(s, Claim, s1, [Withdraw(j)]);
    assert [Claim] + [Withdraw(j)] == [Claim, Withdraw(j)];
  }

  /** Whatever the job comes to, the runner cannot write its `exit`. */
  ghost predicate NeverExits(s: State, j: Job) {
    forall code, result ::
      !Enabled(s, Close(j, code, result)) || !Enabled(Apply(s, Close(j, code, result)), WriteExit)
  }

  lemma Removed(s: State, j: Job) returns (t: State)
    requires s.pc.Serving? && j in s.running && j in s.withdrawing && s.swept == {}
    ensures Step(s, Withdraw(j), t)
    ensures t.pc.Serving? && j in t.running && j !in t.dirs && NeverExits(t, j) && Doomed(t)
  {
    t := Apply(s, Withdraw(j));
    assert j in Needed(t);
  }

  /** A crash between the start of the process and `claimed` runs the job a second time, whatever
      else is running. */
  lemma CrashReruns(s: State, j: Job)
    requires Valid(s) && s.pc.Serving? && Pending(s, j)
    ensures exists acts :: Run(s, Begun(j) + [Crash, Boot] + acts + [Recovered] + Begun(j))
              && (forall a <- acts :: a.See? || a.Recover?)
              && Count(Exec(s, Begun(j) + [Crash, Boot] + acts + [Recovered] + Begun(j)).launches, j)
                 == Count(s.launches, j) + 2
  {
    var t := CutShort(s, j);
    ValidRun(s, Begun(j) + [Crash, Boot]);
    var acts := Restarts(t, j);
    Joined(s, Begun(j) + [Crash, Boot], acts + [Recovered] + Begun(j));
    assert (Begun(j) + [Crash, Boot]) + (acts + [Recovered] + Begun(j))
        == Begun(j) + [Crash, Boot] + acts + [Recovered] + Begun(j);
  }

  lemma CutShort(s: State, j: Job) returns (t: State)
    requires Valid(s) && s.pc.Serving? && Pending(s, j)
    ensures Run(s, Begun(j) + [Crash, Boot]) && Exec(s, Begun(j) + [Crash, Boot]) == t
    ensures t.pc.Recovering? && Pending(t, j) && Count(t.launches, j) == Count(s.launches, j) + 1
  {
    var s1 := BegunRun(s, j);
    t := Rebooted(s1);
    Joined(s, Begun(j), [Crash, Boot]);
  }

  lemma Rebooted(s: State) returns (t: State)
    requires !s.pc.Down?
    ensures Run(s, [Crash, Boot]) && Exec(s, [Crash, Boot]) == t
    ensures t.pc.Recovering? && t.dirs == s.dirs && t.running == {} && t.launches == s.launches
  {
    var down := Apply(s, Crash);
    t := Apply(down, Boot);
    One(down, Boot, t);
    Then(s, Crash, down, [Boot]);
    assert [Crash] + [Boot] == [Crash, Boot];
  }

  lemma Restarts(s: State, j: Job) returns (acts: seq<Action>)
    requires Valid(s) && s.pc.Recovering? && Pending(s, j)
    ensures (forall a <- acts :: a.See? || a.Recover?) && Run(s, acts + [Recovered] + Begun(j))
    ensures Count(Exec(s, acts + [Recovered] + Begun(j)).launches, j) == Count(s.launches, j) + 1
  {
    var t;
    acts, t := RecoverEach(s, j);
    ValidRun(s, acts);
    var u := Apply(t, Recovered);
    ValidStep(t, Recovered);
    var v := BegunRun(u, j);
    Then(t, Recovered, u, Begun(j));
    Joined(s, acts, [Recovered] + Begun(j));
    assert acts + ([Recovered] + Begun(j)) == acts + [Recovered] + Begun(j);
  }

  lemma {:induction false} Joined(s: State, acts: seq<Action>, more: seq<Action>)
    requires Run(s, acts) && Run(Exec(s, acts), more)
    ensures Run(s, acts + more) && Exec(s, acts + more) == Exec(Exec(s, acts), more)
    decreases acts
  {
    if acts == [] {
      assert acts + more == more;
    } else {
      Joined(Apply(s, acts[0]), acts[1..], more);
      Then(s, acts[0], Apply(s, acts[0]), acts[1..] + more);
      assert [acts[0]] + (acts[1..] + more) == acts + more;
    }
  }

  /** `recover` closes what is unfinished and leaves what is pending. */
  lemma {:induction false} RecoverEach(s: State, j: Job) returns (acts: seq<Action>, t: State)
    requires s.pc.Recovering? && Pending(s, j)
    ensures Run(s, acts) && t == Exec(s, acts) && forall a <- acts :: a.See? || a.Recover?
    ensures t.pc.Recovering? && Enabled(t, Recovered) && Pending(t, j) && t.launches == s.launches
    decreases |UnfinishedJobs(s)|
  {
    acts, t := [], s;
    if k :| k in UnfinishedJobs(s) {
      var seen := Apply(s, See(k));
      var next := Apply(seen, Recover(""));
      assert UnfinishedJobs(next) == UnfinishedJobs(s) - {k};
      var rest;
      rest, t := RecoverEach(next, j);
      Then(seen, Recover(""), next, rest);
      Then(s, See(k), seen, [Recover("")] + rest);
      acts := [See(k)] + ([Recover("")] + rest);
    } else {
      assert forall k <- s.dirs :: Unfinished(s.dirs[k]) ==> k in UnfinishedJobs(s);
    }
  }

  /** A start that is about to happen is a second one exactly when a crash cut an earlier one short. */
  lemma SecondStartIff(s: State, j: Job)
    requires Valid(s) && Enabled(s, Spawn(j))
    ensures Count(s.launches, j) == Count(s.cutShort, j)
    ensures Count(Apply(s, Spawn(j)).launches, j) >= 2 <==> Count(s.cutShort, j) >= 1
  {
  }

  /** `exit` means that the job's process has exited. */
  predicate ExitMeansDead(s: State) {
    forall j <- s.dirs :: s.dirs[j].exit.Some? ==> j !in s.leaders
  }

  /** A run in which `stop`, past its deadline, closes no job that is still alive. The code does
      not look: it marks every job left in `running`. */
  predicate PromptRun(s: State, acts: seq<Action>)
    ensures PromptRun(s, acts) ==> Run(s, acts)
    decreases acts
  {
    acts == [] ||
    (&& Enabled(s, acts[0])
     && (acts[0].SweepExit? ==> s.pc.job !in s.leaders)
     && PromptRun(Apply(s, acts[0]), acts[1..]))
  }

  lemma {:induction false} PromptRunSafe(s: State, acts: seq<Action>)
    requires Valid(s) && s.swept !! s.leaders && PromptRun(s, acts)
    ensures ExitMeansDead(Exec(s, acts))
    decreases acts
  {
    if acts != [] {
      ValidStep(s, acts[0]);
      PromptRunSafe(Apply(s, acts[0]), acts[1..]);
    }
  }

  lemma SweepingLiveBreaks(s: State)
    requires Valid(s) && Enabled(s, SweepExit) && s.pc.job in s.leaders
    ensures PromptRun(Apply(s, SweepExit), []) && !ExitMeansDead(Exec(Apply(s, SweepExit), []))
  {
    assert Apply(s, SweepExit).dirs[s.pc.job].exit.Some?;
  }

  /** Closing a job past the deadline is safe exactly when its process has exited. */
  lemma SweepSafeIff(s: State)
    requires Valid(s) && s.swept !! s.leaders && Enabled(s, SweepExit)
    ensures s.pc.job !in s.leaders <==>
            forall acts :: PromptRun(Apply(s, SweepExit), acts) ==>
              ExitMeansDead(Exec(Apply(s, SweepExit), acts))
  {
    var t := Apply(s, SweepExit);
    ValidStep(s, SweepExit);
    if s.pc.job in s.leaders {
      SweepingLiveBreaks(s);
    } else {
      forall acts | PromptRun(t, acts) ensures ExitMeansDead(Exec(t, acts)) {
        PromptRunSafe(t, acts);
      }
    }
  }

  /** A job that outlives the deadline is closed alive. */
  lemma SweepMarksLive(s: State, j: Job)
    requires Valid(s) && AtTop(s) && Pending(s, j)
    ensures
      var acts := Begun(j) + [Claim] + [Stop, Deadline, Sweep(j, None), SweepExit];
      Run(s, acts) && !ExitMeansDead(Exec(s, acts))
  {
    var s1 := UpAndRunning(s, j);
    var s2, s3, s4, s5 := ClosedAlive(s1, j);
    Four(s1, Stop, s2, Deadline, s3, Sweep(j, None), s4, SweepExit, s5);
    Joined(s, Begun(j) + [Claim], [Stop, Deadline, Sweep(j, None), SweepExit]);
  }

  lemma UpAndRunning(s: State, j: Job) returns (t: State)
    requires Valid(s) && AtTop(s) && Pending(s, j)
    ensures Run(s, Begun(j) + [Claim]) && Exec(s, Begun(j) + [Claim]) == t
    ensures AtTop(t) && j in t.dirs && j in t.running && j in t.leaders && j in t.writers && t.swept == {}
  {
    var s1 := BegunRun(s, j);
    t := Apply(s1, Claim);
    One(s1, Claim, t);
    Joined(s, Begun(j), [Claim]);
  }

  lemma ClosedAlive(s: State, j: Job) returns (t: State, u: State, v: State, w: State)
    requires AtTop(s) && j in s.dirs && j in s.running && j in s.leaders && s.swept == {}
    ensures Step(s, Stop, t) && Step(t, Deadline, u) && Step(u, Sweep(j, None), v) && Step(v, SweepExit, w)
    ensures !ExitMeansDead(w)
  {
    t := Apply(s, Stop);
    u := Apply(t, Deadline);
    assert u == s.(pc := Sweeping);
    v, w := SweptAlive(u, j);
  }

  lemma SweptAlive(s: State, j: Job) returns (t: State, u: State)
    requires s.pc.Sweeping? && j in s.dirs && j in s.running && j in s.leaders && j !in s.swept
    ensures Step(s, Sweep(j, None), t) && Step(t, SweepExit, u) && !ExitMeansDead(u)
  {
    t := Apply(s, Sweep(j, None));
    u := Apply(t, SweepExit);
    assert j in u.leaders && u.dirs[j].exit.Some?;
  }
}
