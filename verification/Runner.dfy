/** The runner's process (deploy/uitest/runner.py), statement by statement, over the spool and the
    container's memory meter. Between any two statements that touch the outside, clients and
    processes take any steps they like; an exception ends the process, and the container with it.

    Whatever the code does is a run of the two machines, so what is proved of every run of Spool
    and Memory holds of it. */
module Runner {
  import opened Basics
  import S = Spool
  import M = Memory

  const TERM_GRACE_S := 10

  /** What `exit` says of a process's return code: 128 plus the signal that ended it. */
  function ExitCode(returncode: int): int {
    if returncode < 0 then 128 - returncode else returncode
  }

  datatype Signal = NoSignal | Term | Kill

  /** SIGTERM the first time, SIGKILL when more than the grace has passed since. */
  function NextSignal(termSent: map<S.Job, int>, j: S.Job, now: int): Signal {
    if j !in termSent then Term else if now - termSent[j] > TERM_GRACE_S then Kill else NoSignal
  }

  /** The job a statement of the runner is about. */
  function Touched(s: S.State, a: S.Action): set<S.Job> {
    match a
    case Spawn(j) => {j}
    case StartFails(j, _) => {j}
    case See(j) => {j}
    case Close(j, _, _) => {j}
    case Sweep(j, _) => {j}
    case Prune(_) => {}
    case _ => S.Doing(s)
  }

  /** The spool moved on, and of the directories and jobs outside `touched` nothing was claimed,
      started or dropped. */
  predicate Later(s: S.State, s': S.State, touched: set<S.Job>) {
    && s.dirs.Keys <= s.submitted <= s'.submitted
    && (forall j <- s'.dirs :: j !in s.submitted || j in s.dirs)
    && (forall j <- s'.dirs :: j in s.dirs ==> S.Onward(s.dirs[j], s'.dirs[j]))
    && (forall j <- s'.dirs :: j in s.dirs && j !in touched ==> s'.dirs[j].claimed == s.dirs[j].claimed)
    && (forall j <- s'.running :: j in s.running || j in touched)
    && (forall j <- s.running :: j in s'.running || j in touched)
    && (forall j <- s'.leaders :: j in s.leaders || j in touched)
  }

  /** What clients and processes can do while the runner does nothing. */
  predicate Quiet(s: S.State, s': S.State) {
    && Later(s, s', {})
    && s'.pc == s.pc && s'.listed == s.listed && s'.running == s.running && s'.swept == s.swept
    && (forall j <- s'.dirs :: j in s.dirs || !s'.dirs[j].claimed)
    && forall j <- s'.dirs :: j in s.dirs ==>
         s'.dirs[j].exit == s.dirs[j].exit && s'.dirs[j].result == s.dirs[j].result
  }

  lemma AllOnward(s: S.State, a: S.Action)
    requires S.Valid(s) && S.Enabled(s, a)
    ensures var t := S.Apply(s, a); forall j <- t.dirs :: j in s.dirs ==> S.Onward(s.dirs[j], t.dirs[j])
  {
    var t := S.Apply(s, a);
    forall j | j in t.dirs && j in s.dirs ensures S.Onward(s.dirs[j], t.dirs[j]) {
      S.OnwardStep(s, a, j);
    }
  }

  lemma QuietProcess(s: S.State, a: S.Action)
    requires S.Valid(s) && S.Enabled(s, a) && (a.LeaderExits? || a.WritersGone? || a.Writes?)
    ensures Quiet(s, S.Apply(s, a))
  {
    AllOnward(s, a);
  }

  lemma QuietStep(s: S.State, a: S.Action)
    requires S.Valid(s) && S.Enabled(s, a) && S.ClientOrProcess(a)
    ensures Quiet(s, S.Apply(s, a))
  {
    if a.LeaderExits? || a.WritersGone? || a.Writes? {
      QuietProcess(s, a);
    } else {
      AllOnward(s, a);
    }
  }

  lemma QuietTrans(s: S.State, t: S.State, u: S.State)
    requires Quiet(s, t) && Quiet(t, u)
    ensures Quiet(s, u)
  {
    LaterThen(s, t, u);
  }

  /** The steps that only look, or only move the runner's thread. */
  predicate Looks(a: S.Action) {
    a.Boot? || a.See? || a.SeenExit? || a.Recovered? || a.Look? || a.List? || a.Unlisted? || a.Stop? || a.Deadline?
  }

  lemma LaterLooks(s: S.State, a: S.Action)
    requires S.Valid(s) && S.Enabled(s, a) && Looks(a)
    ensures Later(s, S.Apply(s, a), Touched(s, a))
  {
    AllOnward(s, a);
  }

  lemma LaterStart(s: S.State, a: S.Action)
    requires S.Valid(s) && S.Enabled(s, a) && (a.Spawn? || a.Claim? || a.StartFails? || a.FailExit? || a.Recover?)
    ensures Later(s, S.Apply(s, a), Touched(s, a))
  {
    AllOnward(s, a);
  }

  lemma LaterStep(s: S.State, a: S.Action)
    requires S.Valid(s) && S.Enabled(s, a) && !a.Crash? && !a.Quit?
    ensures Later(s, S.Apply(s, a), Touched(s, a))
  {
    if Looks(a) {
      LaterLooks(s, a);
    } else if a.Spawn? || a.Claim? || a.StartFails? || a.FailExit? || a.Recover? {
      LaterStart(s, a);
    } else if S.ClientOrProcess(a) {
      QuietStep(s, a);
    } else {
      AllOnward(s, a);
    }
  }

  /** A statement, an interlude, and the next statement about the same job. */
  lemma LaterTwice(s: S.State, s1: S.State, s2: S.State, s3: S.State, j: S.Job)
    requires Later(s, s1, {j}) && Quiet(s1, s2) && Later(s2, s3, {j})
    ensures Later(s, s3, {j})
  {
    LaterAfter(s1, s2, s3, j);
    LaterSame(s, s1, s3, j);
  }

  lemma LaterTrans(s: S.State, t: S.State, u: S.State, a: set<S.Job>, b: set<S.Job>)
    requires Later(s, t, a) && Later(t, u, b)
    ensures Later(s, u, a + b)
  {
  }

  lemma LaterThen(s: S.State, t: S.State, u: S.State)
    requires Later(s, t, {}) && Later(t, u, {})
    ensures Later(s, u, {})
  {
    LaterTrans(s, t, u, {}, {});
    var none: set<S.Job> := {};
    assert none + none == none;
  }

  lemma LaterAfter(s: S.State, t: S.State, u: S.State, j: S.Job)
    requires Later(s, t, {}) && Later(t, u, {j})
    ensures Later(s, u, {j})
  {
    LaterTrans(s, t, u, {}, {j});
    var none: set<S.Job> := {};
    assert none + {j} == {j};
  }

  lemma LaterSame(s: S.State, t: S.State, u: S.State, j: S.Job)
    requires Later(s, t, {j}) && Later(t, u, {j})
    ensures Later(s, u, {j})
  {
    LaterTrans(s, t, u, {j}, {j});
    assert {j} + {j} == {j};
  }

  /** A step of the runner's, as it is recorded. */
  lemma DoStep(acts: seq<S.Action>, s: S.State, m: M.Meter, a: S.Action)
    requires S.Run(S.Start(), acts) && s == S.Exec(S.Start(), acts) && ResultsOk(s, m) && S.Enabled(s, a)
    requires (a.Close? || a.Sweep?) && a.result.Some? ==> Recorded(m, a.j, a.result)
    ensures S.Run(S.Start(), acts + [a]) && S.Exec(S.Start(), acts + [a]) == S.Apply(s, a)
    ensures ResultsOk(S.Apply(s, a), m)
    ensures !a.Crash? && !a.Quit? ==> Later(s, S.Apply(s, a), Touched(s, a))
  {
    RunAppend(S.Start(), acts, a);
    S.ValidRun(S.Start(), acts);
    if !a.Crash? && !a.Quit? { LaterStep(s, a); }
    ResultsStep(s, m, a);
  }

  lemma {:induction false} RunAppend(s: S.State, acts: seq<S.Action>, a: S.Action)
    requires S.Run(s, acts) && S.Enabled(S.Exec(s, acts), a)
    ensures S.Run(s, acts + [a]) && S.Exec(s, acts + [a]) == S.Apply(S.Exec(s, acts), a)
    decreases acts
  {
    if acts == [] {
      assert [a][1..] == [];
      assert S.Run(S.Apply(s, a), []);
    } else {
      assert (acts + [a])[1..] == acts[1..] + [a];
      RunAppend(S.Apply(s, acts[0]), acts[1..], a);
    }
  }

  lemma {:induction false} MeterAppend(m: M.Meter, acts: seq<M.Action>, a: M.Action)
    requires M.Run(m, acts) && M.Enabled(M.Exec(m, acts), a)
    ensures M.Run(m, acts + [a]) && M.Exec(m, acts + [a]) == M.Apply(M.Exec(m, acts), a)
    decreases acts
  {
    if acts == [] {
      assert [a][1..] == [];
      assert M.Run(M.Apply(m, a), []);
    } else {
      assert (acts + [a])[1..] == acts[1..] + [a];
      MeterAppend(M.Apply(m, acts[0]), acts[1..], a);
    }
  }

  lemma {:induction false} MeterHasMoments(m: M.Meter, acts: seq<M.Action>)
    requires M.Run(m, acts) && m.trace != []
    ensures M.Exec(m, acts).trace != []
    decreases acts
  {
    if acts != [] { MeterHasMoments(M.Apply(m, acts[0]), acts[1..]); }
  }

  /** The jobs whose watch is open: those in `running` that are not being closed. */
  function Watched(s: S.State): set<S.Job> {
    s.running - s.swept - (if s.pc.Closing? || s.pc.SweepClosing? then {s.pc.job} else {})
  }

  /** Closed with this code, unless its directory was taken away. */
  predicate ClosedWith(s: S.State, j: S.Job, code: int) {
    j in s.dirs ==> s.dirs[j].exit == Some(code)
  }

  /** What a job is closed with: while the runner stops, 125; else what its process returned, and 128 plus
      the number of the signal that ended it. */
  predicate ClosedFor(s: S.State, j: S.Job, stopping: bool, returncode: int) {
    && (stopping ==> ClosedWith(s, j, 125))
    && (!stopping && returncode >= 0 ==> ClosedWith(s, j, returncode))
    && (!stopping && returncode < 0 ==> ClosedWith(s, j, 128 + -returncode))
  }

  /** The job's turn since `s`: it is closed if its process had exited by then, and if it is not running
      any more then it is closed so. */
  predicate Polled(s: S.State, s': S.State, j: S.Job, returncode: int) {
    && (j !in s.leaders ==> j !in s'.running)
    && (j in s'.running || ClosedFor(s', j, s.pc.Stopping?, returncode))
  }

  lemma PolledStays(s: S.State, t: S.State, u: S.State, j: S.Job, returncode: int, touched: set<S.Job>)
    requires Polled(s, t, j, returncode) && Later(t, u, touched) && j !in touched && j in t.submitted
    ensures Polled(s, u, j, returncode)
  {
  }

  /** What was finished is as it was, what was unfinished is so still or was closed with 125, and nothing
      that was pending was touched. */
  predicate Recovered(s: S.State, s': S.State) {
    && s.dirs.Keys <= s.submitted <= s'.submitted
    && (forall k <- s'.dirs :: k in s.dirs || (k !in s.submitted && !s'.dirs[k].claimed))
    && forall k <- s'.dirs :: k in s.dirs ==>
         && s'.dirs[k].claimed == s.dirs[k].claimed
         && (s'.dirs[k].exit == s.dirs[k].exit || (S.Unfinished(s.dirs[k]) && s'.dirs[k].exit == Some(125)))
  }

  lemma RecoveredTrans(s: S.State, t: S.State, u: S.State)
    requires Recovered(s, t) && Recovered(t, u)
    ensures Recovered(s, u)
  {
  }

  lemma QuietRecovers(s: S.State, t: S.State)
    requires Quiet(s, t)
    ensures Recovered(s, t)
  {
  }

  /** Every result that stands in the spool is the reading of that job's own watch. */
  ghost predicate ResultsOk(s: S.State, m: M.Meter) {
    forall j <- s.dirs :: s.dirs[j].result.Some? ==> Recorded(m, j, s.dirs[j].result)
  }

  predicate Recorded(m: M.Meter, j: S.Job, reading: Option<M.Reading>) {
    exists f <- m.done :: f.job == j && f.reading == reading
  }

  predicate SoundResult(m: M.Meter, j: S.Job, r: M.Reading) {
    exists f <- m.done ::
      && f.job == j && f.reading == Some(r) && f.watch.since <= f.closed < |m.trace|
      && M.Sound(M.Window(m, f), j, f.watch, r)
  }

  lemma ResultsStep(s: S.State, m: M.Meter, a: S.Action)
    requires ResultsOk(s, m) && S.Enabled(s, a)
    requires (a.Close? || a.Sweep?) && a.result.Some? ==> Recorded(m, a.j, a.result)
    ensures ResultsOk(S.Apply(s, a), m)
  {
    var t := S.Apply(s, a);
    forall j | j in t.dirs && t.dirs[j].result.Some? ensures Recorded(m, j, t.dirs[j].result) {
      if j in s.dirs && s.dirs[j].result == t.dirs[j].result { assert Recorded(m, j, s.dirs[j].result); }
    }
  }

  lemma ResultsMeter(s: S.State, m: M.Meter, a: M.Action)
    requires ResultsOk(s, m) && M.Enabled(m, a)
    ensures ResultsOk(s, M.Apply(m, a))
  {
    var m' := M.Apply(m, a);
    assert forall f <- m.done :: f in m'.done;
    forall j | j in s.dirs && s.dirs[j].result.Some? ensures Recorded(m', j, s.dirs[j].result) {
      assert Recorded(m, j, s.dirs[j].result);
    }
  }

  lemma CloseLeaves(s: S.State, j: S.Job, code: int, result: Option<M.Reading>)
    requires S.Enabled(s, S.Close(j, code, result))
    ensures
      var t := S.Apply(s, S.Close(j, code, result));
      && Watched(t) == Watched(s) - {j} && t.pc == S.Closing(j, code, s.pc.Stopping?)
      && (j in t.dirs && result.Some? ==> t.dirs[j].result == result)
  {
  }

  class Runner {
    var s: S.State
    var m: M.Meter
    var termSent: map<S.Job, int>       // Job.term_sent
    ghost var acts: seq<S.Action>       // everything that has happened in the spool
    ghost var metered: seq<M.Action>    // and in the container
    const usage: nat

    ghost predicate SpoolRun()
      reads this
    {
      S.Run(S.Start(), acts) && s == S.Exec(S.Start(), acts)
    }

    ghost predicate MeterRun()
      reads this
    {
      M.Run(M.Fresh(usage), metered) && m == M.Exec(M.Fresh(usage), metered)
    }

    /** The state is one that runs of the two machines lead to, they speak of the same jobs, and
        the results in the spool are the meter's readings. */
    ghost predicate Valid()
      reads this
    {
      && SpoolRun() && MeterRun() && ResultsOk(s, m) && m.live.Keys == Watched(s)
      && (m.opening.Some? <==> s.pc.Spawned?)
      && (m.opening.Some? ==> m.opening.value.0 == s.pc.job)
    }

    lemma SpoolFacts()
      requires SpoolRun()
      ensures S.NamesOk(s) && S.PcOk(s) && S.ListedOk(s) && forall j <- s.dirs :: s.dirs[j].jobFile
    {
      S.ValidRun(S.Start(), acts);
    }

    constructor (usage: nat)
      ensures Valid() && s == S.Start()
    {
      this.usage := usage;
      s, acts, m, metered, termSent := S.Start(), [], M.Fresh(usage), [], map[];
      new;
    }

    method Do(a: S.Action)
      requires SpoolRun() && ResultsOk(s, m) && S.Enabled(s, a)
      requires (a.Close? || a.Sweep?) && a.result.Some? ==> Recorded(m, a.j, a.result)
      modifies this`s, this`acts
      ensures SpoolRun() && ResultsOk(s, m) && s == S.Apply(old(s), a)
      ensures !a.Crash? && !a.Quit? ==> Later(old(s), s, Touched(old(s), a))
    {
      DoStep(acts, s, m, a);
      s := S.Apply(s, a);
      acts := acts + [a];
    }

    method Measure(a: M.Action)
      requires MeterRun() && ResultsOk(s, m) && M.Enabled(m, a)
      modifies this`m, this`metered
      ensures MeterRun() && ResultsOk(s, m) && m == M.Apply(old(m), a)
    {
      ResultsMeter(s, m, a);
      MeterAppend(M.Fresh(usage), metered, a);
      m := M.Apply(m, a);
      metered := metered + [a];
    }

    method Outsider()
      requires Valid()
      modifies this`s, this`acts
      ensures Valid() && Quiet(old(s), s)
    {
      SpoolFacts();
      var a: S.Action := *;
      if S.ClientOrProcess(a) && S.Enabled(s, a) {
        S.ValidRun(S.Start(), acts);
        QuietStep(s, a);
        Do(a);
      }
    }

    method UseMemory()
      requires Valid()
      modifies this`m, this`metered
      ensures Valid() && m.done == old(m).done
    {
      var a: M.Action := *;
      if (a.Uses? || a.Sample?) && M.Enabled(m, a) {
        Measure(a);
        assert m.live.Keys == old(m).live.Keys;
      }
    }

    /** Clients submit, cancel and withdraw, processes write and exit, memory is used and sampled. */
    method Interfere()
      requires Valid()
      modifies this`s, this`acts, this`m, this`metered
      ensures Valid() && Quiet(old(s), s) && m.done == old(m).done
    {
      SpoolFacts();
      var steps: nat := *;
      while 0 < steps
        invariant Valid() && Quiet(old(s), s) && m.done == old(m).done
      {
        ghost var t := s;
        Outsider();
        QuietTrans(old(s), t, s);
        UseMemory();
        steps := steps - 1;
      }
    }

    /** An exception: a file cannot be written, because its directory is gone. The container goes
        with the process. It happens only where the spool's own account says it must. */
    method Crash()
      requires SpoolRun() && MeterRun() && ResultsOk(s, m) && !s.pc.Down? && S.Doomed(s)
      modifies this
      ensures Valid() && s.pc.Down?
    {
      Do(S.Crash);
      Measure(M.Restart(0));
      termSent := map[];
    }

    // the statements of the runner, one by one

    method Spawn(j: S.Job, kernel: M.Kernel)
      requires Valid() && S.Enabled(s, S.Spawn(j))
      modifies this`s, this`acts, this`m, this`metered
      ensures Valid() && s.pc == S.Spawned(j) && Later(old(s), s, {j}) && s.listed == old(s).listed - {j}
    {
      SpoolFacts();
      Measure(M.Open(j, kernel));       // before the first byte the job allocates
      Do(S.Spawn(j));
    }

    method Claim()
      requires Valid() && S.Enabled(s, S.Claim)
      modifies this`s, this`acts, this`m, this`metered
      ensures Valid() && s.pc.Serving? && s.listed == old(s).listed && Later(old(s), s, {old(s).pc.job})
      ensures
        var j := old(s).pc.job;
        j in s.dirs && s.dirs[j].claimed && s.dirs[j].exit.None? && j in s.running
    {
      SpoolFacts();
      ClaimWatches();
      Do(S.Claim);
      Measure(M.Started);
    }

    lemma ClaimWatches()
      requires SpoolRun() && S.Enabled(s, S.Claim)
      ensures Watched(S.Apply(s, S.Claim)) == Watched(s) + {s.pc.job} && s.pc.job !in s.running
      ensures s.dirs[s.pc.job].exit.None?
    {
      S.ValidRun(S.Start(), acts);
    }

    method StartFails(j: S.Job, watched: bool, kernel: M.Kernel)
      requires Valid() && S.Enabled(s, S.StartFails(j, "")) && j !in s.running
      modifies this`s, this`acts, this`m, this`metered
      ensures Valid() && s.pc == S.Failing(j) && Later(old(s), s, {j}) && s.listed == old(s).listed - {j}
      ensures j in s.dirs && s.dirs[j].claimed
    {
      if watched { Unwatch(j, kernel); }
      Do(S.StartFails(j, "uitest runner: could not start this job"));
    }

    /** A watch that was opened for nothing is closed at once. */
    method Unwatch(j: S.Job, kernel: M.Kernel)
      requires Valid() && m.opening.None? && j !in m.live
      modifies this`m, this`metered
      ensures Valid() && m.opening.None?
    {
      Measure(M.Open(j, kernel));
      Measure(M.NotStarted);
    }

    method FailExit()
      requires Valid() && S.Enabled(s, S.FailExit)
      modifies this`s, this`acts
      ensures Valid() && s.pc.Serving? && s.listed == old(s).listed && Later(old(s), s, {old(s).pc.job})
      ensures
        var j := old(s).pc.job;
        j in s.dirs && s.dirs[j].claimed && s.dirs[j].exit == Some(2) && j !in s.running
    {
      SpoolFacts();
      Do(S.FailExit);
    }

    /** The reading is taken and written; `stored` says whether it could be. */
    method Close(j: S.Job, code: int, readable: bool, stored: bool)
      requires Valid() && S.Enabled(s, S.Close(j, code, None))
      modifies this`s, this`acts, this`m, this`metered
      ensures Valid() && s.pc == S.Closing(j, code, old(s).pc.Stopping?) && Later(old(s), s, {j})
      ensures stored ==> HasResult(j)
    {
      assert j in m.live by { SpoolFacts(); }
      var reading := ReadWatch(j, readable);
      StoreResult(j, code, if stored then reading else None);
    }

    /** write_result, for a job whose watch has been read. */
    method StoreResult(j: S.Job, code: int, result: Option<M.Reading>)
      requires SpoolRun() && MeterRun() && ResultsOk(s, m) && S.Enabled(s, S.Close(j, code, result))
      requires m.live.Keys == Watched(s) - {j} && m.opening.None?
      requires result.Some? ==> Recorded(m, j, result)
      modifies this`s, this`acts
      ensures Valid() && s.pc == S.Closing(j, code, old(s).pc.Stopping?) && Later(old(s), s, {j})
      ensures j in s.dirs && result.Some? ==> s.dirs[j].result == result
    {
      CloseLeaves(s, j, code, result);
      Do(S.Close(j, code, result));
    }

    /** Watch.finish: the reading of the job's watch, which is closed by it. */
    method ReadWatch(j: S.Job, readable: bool) returns (reading: Option<M.Reading>)
      requires MeterRun() && ResultsOk(s, m) && j in m.live
      modifies this`m, this`metered
      ensures MeterRun() && ResultsOk(s, m) && m.live == old(m).live - {j} && m.opening == old(m).opening
      ensures m.done != [] && m.done[|m.done| - 1].job == j && m.done[|m.done| - 1].reading == reading
      ensures Recorded(m, j, reading)
    {
      MeterHasMoments(M.Fresh(usage), metered);
      Measure(M.Finish(j, readable));
      reading := m.done[|m.done| - 1].reading;
      assert m.done[|m.done| - 1] in m.done;
    }

    method WriteExit()
      requires Valid() && S.Enabled(s, S.WriteExit)
      modifies this`s, this`acts
      ensures Valid() && s.pc == (if old(s).pc.ending then S.Stopping else S.Serving) && s.listed == old(s).listed
      ensures Later(old(s), s, {old(s).pc.job}) && old(s).pc.job !in s.running
      ensures
        var j := old(s).pc.job;
        j in s.dirs && s.dirs[j].exit == Some(old(s).pc.code) && s.dirs[j].result == old(s).dirs[j].result
    {
      Do(S.WriteExit);
    }

    // the functions

    /** `start` of a job that was listed, then its caller's bookkeeping. Returns whether the runner is
        still up. `runnable` is whether the job file and the command could be used, `watched` whether
        a job that could not be started got as far as a watch. */
    method StartJob(j: S.Job, runnable: bool, watched: bool, kernel: M.Kernel) returns (up: bool)
      requires Valid() && s.pc.Serving? && j in s.listed
      modifies this
      ensures Valid() && (if up then s.pc.Serving? && s.listed == old(s).listed - {j} else s.pc.Down?)
      ensures up ==> Later(old(s), s, {j}) && j in s.dirs && s.dirs[j].claimed
      ensures up && runnable ==> j in s.running && s.dirs[j].exit.None?
      ensures up && !runnable ==> j !in s.running && s.dirs[j].exit == Some(2)
      ensures j !in old(s).dirs ==> !up
    {
      SpoolFacts();
      Missing(j);
      if j !in s.dirs { Crash(); return false; }            // the log cannot be opened
      Begin(j, runnable, watched, kernel);
      ghost var s1 := s;
      up := Settle(j);
      if up {
        LaterSame(old(s), s1, s, j);
      }
    }

    /** The process runs, or the log says why it does not. */
    method Begin(j: S.Job, runnable: bool, watched: bool, kernel: M.Kernel)
      requires Valid() && s.pc.Serving? && j in s.listed && j in s.dirs
      modifies this`s, this`acts, this`m, this`metered
      ensures Valid() && s.pc == (if runnable then S.Spawned(j) else S.Failing(j))
      ensures s.listed == old(s).listed - {j} && Later(old(s), s, {j})
    {
      SpoolFacts();
      if runnable {
        Spawn(j, kernel);
      } else {
        StartFails(j, watched, kernel);
      }
    }

    /** `claimed`, or the `exit` of a job that could not be started. */
    method Settle(j: S.Job) returns (up: bool)
      requires Valid() && (s.pc == S.Spawned(j) || s.pc == S.Failing(j))
      modifies this
      ensures Valid() && (if up then s.pc.Serving? && s.listed == old(s).listed else s.pc.Down?)
      ensures up ==> Later(old(s), s, {j}) && j in s.dirs && s.dirs[j].claimed
      ensures up && old(s).pc.Spawned? ==> j in s.running && s.dirs[j].exit.None?
      ensures up && old(s).pc.Failing? ==> j !in s.running && s.dirs[j].exit == Some(2)
    {
      Interfere();
      ghost var s1 := s;
      Missing(j);
      if j !in s.dirs { Crash(); return false; }            // the file cannot be written
      if s.pc.Spawned? {
        Claim();
      } else {
        FailExit();
      }
      LaterAfter(old(s), s1, s, j);
      return true;
    }

    /** A directory that is needed and gone is what dooms the runner. */
    lemma Missing(j: S.Job)
      ensures j !in s.dirs && j in S.Needed(s) ==> S.Doomed(s)
    {
    }

    /** `_finish` and the removal from `running`: the measurements first, `exit` last. */
    method Finish(j: S.Job, code: int, readable: bool, stored: bool) returns (up: bool)
      requires Valid() && S.Enabled(s, S.Close(j, code, None))
      modifies this
      ensures Valid() && (if up then s.pc == old(s).pc else s.pc.Down?)
      ensures up ==> Later(old(s), s, {j}) && j !in s.running && s.listed == {}
      ensures up ==> j in s.dirs && s.dirs[j].exit == Some(code)
      ensures up && stored ==> HasResult(j)
      ensures up ==> termSent == old(termSent) - {j}
    {
      var others := termSent - {j};
      Close(j, code, readable, stored);
      ghost var s1 := s;
      up := CloseExit();
      if up {
        termSent := others;
        LaterTrans(old(s), s1, s, {j}, {j});
        assert {j} + {j} == {j};
      }
    }

    /** `exit`, last of all; it cannot be written when the directory has been taken away. */
    method CloseExit() returns (up: bool)
      requires Valid() && s.pc.Closing?
      modifies this
      ensures Valid() && (if up then s.pc == (if old(s).pc.ending then S.Stopping else S.Serving) else s.pc.Down?)
      ensures up ==> Later(old(s), s, {old(s).pc.job}) && old(s).pc.job !in s.running && s.listed == {}
      ensures
        var j := old(s).pc.job;
        up ==> && j in old(s).dirs && j in s.dirs && s.dirs[j].exit == Some(old(s).pc.code)
               && s.dirs[j].result == old(s).dirs[j].result && m.done == old(m).done
    {
      var j := s.pc.job;
      SpoolFacts();
      Interfere();
      ghost var s2 := s;
      Missing(j);
      if j !in s.dirs { Crash(); return false; }
      WriteExit();
      LaterAfter(old(s), s2, s, j);
      return true;
    }

    /** What stands beside `exit` is what the job's own watch read, if it read anything. */
    ghost predicate HasResult(j: S.Job)
      reads this
    {
      && m.done != []
      && var f := m.done[|m.done| - 1];
         f.job == j && (f.reading.Some? && j in s.dirs ==> s.dirs[j].result == f.reading)
    }

    /** `_end`: SIGTERM once, SIGKILL only when the grace after it is spent. */
    method End(j: S.Job, now: int) returns (signal: Signal)
      modifies this`termSent
      ensures signal == NextSignal(old(termSent), j, now)
      ensures termSent == if signal.Term? then old(termSent)[j := now] else old(termSent)
    {
      if j !in termSent {
        termSent := termSent[j := now];
        return Term;
      } else if now - termSent[j] > TERM_GRACE_S {
        return Kill;
      }
      return NoSignal;
    }

    /** `pending`: each directory is looked at in its turn. */
    method ListAll()
      requires Valid() && S.AtTop(s)
      modifies this`s, this`acts, this`m, this`metered
      ensures Valid() && s.pc.Serving? && Later(old(s), s, {}) && s.running == old(s).running
      ensures forall j <- old(s).dirs :: S.Pending(old(s), j) && j in s.dirs ==> j in s.listed
      ensures forall j <- s.listed :: j in old(s).dirs
    {
      SpoolFacts();
      var names := s.dirs.Keys;
      var rest := names;
      while rest != {}
        invariant rest <= names && Valid() && s.pc.Serving? && Later(old(s), s, {}) && s.running == old(s).running
        invariant forall j <- names - rest :: S.Pending(old(s), j) && j in s.dirs ==> j in s.listed
        invariant forall j <- s.listed :: j in names
        decreases rest
      {
        var j :| j in rest;
        ghost var s0 := s;
        ListNext(j);
        LaterThen(old(s), s0, s);
        rest := rest - {j};
      }
    }

    /** One directory is looked at, whatever has become of it: its job file, then its `claimed`. */
    method ListNext(j: S.Job)
      requires Valid() && s.pc.Serving? && j in s.submitted
      modifies this`s, this`acts, this`m, this`metered
      ensures Valid() && s.pc.Serving? && Later(old(s), s, {}) && s.running == old(s).running
      ensures old(s).listed <= s.listed <= old(s).listed + {j}
      ensures !(j in old(s).dirs && old(s).dirs[j].claimed) && j !in s.running && j in s.dirs ==> j in s.listed
    {
      Interfere();
      SpoolFacts();
      ghost var s1 := s;
      if j in s.dirs && j !in s.running {
        LookAt(j);
        ghost var s2 := s;
        ListOne();
        LaterThen(s1, s2, s);
      } else {
        LaterRefl();
      }
      LaterThen(old(s), s1, s);
    }

    method LookAt(j: S.Job)
      requires Valid() && S.Enabled(s, S.Look(j))
      modifies this`s, this`acts
      ensures Valid() && s.pc == S.Looking(j) && s.dirs == old(s).dirs && Later(old(s), s, {})
      ensures s.listed == old(s).listed && s.running == old(s).running
    {
      Do(S.Look(j));
    }

    /** Listed, unless `claimed` is there; when the directory is gone, it is not. */
    method ListOne()
      requires Valid() && s.pc.Looking?
      modifies this`s, this`acts, this`m, this`metered
      ensures Valid() && s.pc.Serving? && Later(old(s), s, {}) && s.running == old(s).running
      ensures
        var j := old(s).pc.job;
        s.listed == if j in s.dirs && s.dirs[j].claimed then old(s).listed else old(s).listed + {j}
    {
      Interfere();
      ghost var s1 := s;
      LookAgain();
      LaterThen(old(s), s1, s);
    }

    method LookAgain()
      requires Valid() && s.pc.Looking?
      modifies this`s, this`acts
      ensures Valid() && s.pc.Serving? && Later(old(s), s, {}) && s.running == old(s).running
      ensures s.dirs == old(s).dirs
      ensures
        var j := old(s).pc.job;
        s.listed == if j in s.dirs && s.dirs[j].claimed then old(s).listed else old(s).listed + {j}
    {
      var a := if s.pc.job in s.dirs && s.dirs[s.pc.job].claimed then S.Unlisted else S.List;
      Do(a);
    }

    /** The first loop of `step`: start what is listed, in any order. */
    method StartAll() returns (up: bool)
      requires Valid() && s.pc.Serving?
      modifies this
      ensures Valid() && (if up then S.AtTop(s) else s.pc.Down?)
      ensures up ==> Later(old(s), s, old(s).listed)
      ensures up ==> forall j <- old(s).listed :: j in s.dirs ==> s.dirs[j].claimed
    {
      SpoolFacts();
      ghost var todo := s.listed;
      while s.listed != {}
        invariant s.listed <= todo && Valid() && s.pc.Serving?
        invariant Later(old(s), s, todo - s.listed)
        invariant forall j <- todo - s.listed :: j in s.dirs ==> s.dirs[j].claimed
        decreases s.listed
      {
        var j :| j in s.listed;
        ghost var s0 := s;
        SpoolFacts();
        var alive := StartAny(j);
        if !alive { return false; }
        LaterTrans(old(s), s0, s, todo - s0.listed, {j});
        assert (todo - s0.listed) + {j} == todo - s.listed;
      }
      assert todo - s.listed == todo;
      return true;
    }

    /** Whatever the job file, the command and the kernel turn out to be. */
    method StartAny(j: S.Job) returns (up: bool)
      requires Valid() && s.pc.Serving? && j in s.listed
      modifies this
      ensures Valid() && (if up then s.pc.Serving? && s.listed == old(s).listed - {j} else s.pc.Down?)
      ensures up ==> Later(old(s), s, {j}) && (j in s.dirs ==> s.dirs[j].claimed)
    {
      var runnable: bool := *;
      var watched: bool := *;
      var kernel: M.Kernel := *;
      up := StartJob(j, runnable, watched, kernel);
    }

    /** The second loop of `step`, and the body of `stop`'s: end what was cancelled (or, when
        stopping, everything), record what exited. */
    method PollAll(names: set<S.Job>, codes: S.Job -> int) returns (up: bool)
      requires Valid() && (S.AtTop(s) || s.pc.Stopping?) && names <= s.running
      modifies this
      ensures Valid() && (if up then s.pc == old(s).pc && s.listed == {} else s.pc.Down?)
      ensures up ==> Later(old(s), s, names)
      ensures up ==> forall j <- names :: Polled(old(s), s, j, codes(j))
    {
      SpoolFacts();
      var rest := names;
      while rest != {}
        invariant rest <= names && rest <= s.running && Valid() && s.pc == old(s).pc && s.listed == {}
        invariant Later(old(s), s, names - rest)
        invariant forall j <- names - rest :: Polled(old(s), s, j, codes(j))
        decreases rest
      {
        var j :| j in rest;
        ghost var s0 := s;
        up := PollAny(j, codes(j));
        if !up { return false; }
        forall k | k in names - rest ensures Polled(old(s), s, k, codes(k)) {
          PolledStays(old(s), s0, s, k, codes(k), {j});
        }
        LaterTrans(old(s), s0, s, names - rest, {j});
        assert (names - rest) + {j} == names - (rest - {j});
        rest := rest - {j};
      }
      assert names - rest == names;
      return true;
    }

    /** Whatever the clock says. */
    method PollAny(j: S.Job, returncode: int) returns (up: bool)
      requires Valid() && (S.AtTop(s) || s.pc.Stopping?) && j in s.running
      modifies this
      ensures Valid() && (if up then s.pc == old(s).pc && s.listed == {} else s.pc.Down?)
      ensures up ==> Later(old(s), s, {j})
      ensures up ==> Polled(old(s), s, j, returncode)
    {
      var now: int := *;
      var signal;
      up, signal := Poll(j, now, returncode);
    }

    /** One job's turn: closed when its process has exited, with what it returned; otherwise, when it was
        cancelled or the runner is stopping, sent SIGTERM the first time and SIGKILL once 10 seconds
        have passed since. `returncode` is what its process returns once it has exited. */
    method Poll(j: S.Job, now: int, returncode: int) returns (up: bool, signal: Signal)
      requires Valid() && (S.AtTop(s) || s.pc.Stopping?) && j in s.running
      modifies this
      ensures Valid() && (if up then s.pc == old(s).pc && s.listed == {} else s.pc.Down?)
      ensures up ==> Later(old(s), s, {j})
      ensures up ==> Polled(old(s), s, j, returncode)
      ensures up && j !in s.running && !s.pc.Stopping? ==>
                j in s.dirs && (s.dirs[j].exit == Some(0) <==> returncode == 0)
      ensures up && j in s.running ==>
                var ending := s.pc.Stopping? || (j in s.dirs && s.dirs[j].cancel);
                && (signal.Term? <==> ending && j !in old(termSent))
                && (signal.Kill? <==> ending && j in old(termSent) && now - old(termSent)[j] > 10)
                && termSent == (if signal.Term? then old(termSent)[j := now] else old(termSent))
      ensures j !in s.running ==> signal.NoSignal?
      ensures up && j !in s.running ==> termSent == old(termSent) - {j}
    {
      SpoolFacts();
      signal := NoSignal;
      Interfere();
      ghost var s1 := s;
      if j in s.leaders {
        if s.pc.Stopping? || (j in s.dirs && s.dirs[j].cancel) {
          signal := End(j, now);
        }
        return true, signal;
      }
      var readable: bool := *;
      var stored: bool := *;
      up := Finish(j, if s.pc.Stopping? then S.LOST else ExitCode(returncode), readable, stored);
      if up { LaterAfter(old(s), s1, s, j); }
    }

    /** One pass of the runner. A job that was pending has been claimed, a job whose process had
        exited has been closed with what it returned, and the files agree with `running` again. */
    method Step(codes: S.Job -> int) returns (up: bool)
      requires Valid() && S.AtTop(s)
      modifies this
      ensures Valid() && (if up then S.AtTop(s) else s.pc.Down?)
      ensures up ==> forall j <- old(s).dirs :: S.Pending(old(s), j) && j in s.dirs ==> s.dirs[j].claimed
      ensures up ==> forall j <- old(s).running :: j !in old(s).leaders ==>
                j !in s.running && ClosedFor(s, j, false, codes(j))
      ensures up ==> S.UnfinishedJobs(s) == s.running * s.dirs.Keys
    {
      ListAll();
      SpoolFacts();
      up := StartAll();
      if !up { return; }
      up := PollAll(s.running, codes);
      if !up { return; }
      S.ValidRun(S.Start(), acts);
      S.BoundaryIff(s);
    }

    /** `prune`: of the directories that are finished, or never became a job, the old ones go; none of
        a job that was pending or running when it began. */
    method PruneAll() returns (pruned: set<S.Job>)
      requires Valid() && S.AtTop(s)
      modifies this`s, this`acts, this`m, this`metered
      ensures Valid() && S.AtTop(s) && Later(old(s), s, {}) && s.running == old(s).running
      ensures forall j <- pruned :: j in old(s).dirs && !S.Pending(old(s), j) && j !in old(s).running
    {
      LaterRefl();
      pruned := {};
      ghost var names := s.dirs.Keys;
      var rest := s.dirs.Keys;
      while rest != {}
        invariant rest <= names && Valid() && S.AtTop(s) && Later(old(s), s, {}) && s.running == old(s).running
        invariant forall j <- pruned :: j in old(s).dirs && !S.Pending(old(s), j) && j !in old(s).running
        decreases rest
      {
        var j :| j in rest;
        ghost var s0 := s;
        SpoolFacts();
        var gone := PruneNext(j);
        LaterThen(old(s), s0, s);
        if gone { pruned := pruned + {j}; }
        rest := rest - {j};
      }
    }

    /** One directory is looked at, whatever has become of it; its age is its own. */
    method PruneNext(j: S.Job) returns (gone: bool)
      requires Valid() && S.AtTop(s) && j in s.submitted
      modifies this`s, this`acts, this`m, this`metered
      ensures Valid() && S.AtTop(s) && Later(old(s), s, {}) && s.running == old(s).running
      ensures gone ==> j in old(s).dirs && old(s).dirs[j].claimed && j !in s.running
    {
      SpoolFacts();
      Interfere();
      ghost var s1 := s;
      var aged: bool := *;
      gone := PruneOne(j, aged);
      LaterThen(old(s), s1, s);
    }

    method PruneOne(j: S.Job, aged: bool) returns (gone: bool)
      requires Valid() && S.AtTop(s)
      modifies this`s, this`acts
      ensures Valid() && S.AtTop(s) && Later(old(s), s, {}) && s.running == old(s).running
      ensures gone <==> aged && j in old(s).dirs && (old(s).dirs[j].exit.Some? || !old(s).dirs[j].jobFile)
      ensures gone ==> j !in s.dirs && old(s).dirs[j].claimed && j !in s.running
    {
      LaterRefl();
      gone := aged && j in s.dirs && (s.dirs[j].exit.Some? || !s.dirs[j].jobFile);
      if gone { Remove(j); }
    }

    method Remove(j: S.Job)
      requires Valid() && S.Enabled(s, S.Prune(j))
      modifies this`s, this`acts
      ensures Valid() && S.AtTop(s) && Later(old(s), s, {}) && s.running == old(s).running
      ensures old(s).dirs[j].claimed && j !in s.running && j !in s.dirs
    {
      S.ValidRun(S.Start(), acts);
      S.PruneSpares(s, j);
      Do(S.Prune(j));
    }

    lemma LaterRefl()
      requires SpoolRun()
      ensures Later(s, s, {})
    {
      SpoolFacts();
    }

    /** Every result that stands in the spool is what a watch of that very job read, and is what its
        tag says it is for the job's own window. */
    lemma ResultsSound()
      requires Valid()
      ensures forall j <- s.dirs :: s.dirs[j].result.Some? ==> SoundResult(m, j, s.dirs[j].result.value)
    {
      M.ReadingsSound(usage, metered);
      forall j | j in s.dirs && s.dirs[j].result.Some? ensures SoundResult(m, j, s.dirs[j].result.value) {
        assert Recorded(m, j, s.dirs[j].result);
      }
    }

    method RecoverOne()
      requires Valid() && s.pc.Seen? && s.pc.job in s.dirs
      modifies this`s, this`acts
      ensures Valid() && s.pc.Recovering? && Recovered(old(s), s)
      ensures s.dirs.Keys == old(s).dirs.Keys
      ensures forall k <- s.dirs :: S.Unfinished(s.dirs[k]) <==> k != old(s).pc.job && S.Unfinished(old(s).dirs[k])
    {
      if s.dirs[s.pc.job].exit.Some? {
        SpoolFacts();
        Do(S.SeenExit);
      } else {
        MarkLost();
      }
    }

    method MarkLost()
      requires Valid() && S.Enabled(s, S.Recover(""))
      modifies this`s, this`acts
      ensures Valid() && s.pc.Recovering? && Recovered(old(s), s) && s.dirs.Keys == old(s).dirs.Keys
      ensures forall k <- s.dirs :: S.Unfinished(s.dirs[k]) <==> k != old(s).pc.job && S.Unfinished(old(s).dirs[k])
    {
      SpoolFacts();
      Do(S.Recover("uitest runner: this job was running when the runner stopped"));
    }

    /** `recover`: what a predecessor left unfinished died with it, and is told so with 125; what was
        finished keeps its `exit`, and what was pending stays so. */
    method Recover() returns (up: bool)
      requires Valid() && s.pc.Down?
      modifies this
      ensures Valid() && (if up then S.AtTop(s) else s.pc.Down?)
      ensures up ==> S.UnfinishedJobs(s) == {} == s.running && Recovered(old(s), s)
      ensures up ==> forall j <- s.dirs :: j in old(s).dirs && S.Unfinished(old(s).dirs[j]) ==>
                s.dirs[j].exit == Some(125)
    {
      SpoolFacts();
      Do(S.Boot);
      up := RecoverAll();
      if !up { return; }
      SpoolFacts();
      Do(S.Recovered);
    }

    method RecoverAll() returns (up: bool)
      requires Valid() && s.pc.Recovering?
      modifies this
      ensures Valid() && (if up then s.pc.Recovering? else s.pc.Down?)
      ensures up ==> Recovered(old(s), s) && forall j <- s.dirs :: !S.Unfinished(s.dirs[j])
    {
      SpoolFacts();
      var rest := s.dirs.Keys;
      while rest != {}
        invariant Valid() && s.pc.Recovering? && Recovered(old(s), s)
        invariant forall j <- s.dirs :: j in rest || !S.Unfinished(s.dirs[j])
        decreases rest
      {
        var j :| j in rest;
        ghost var s0 := s;
        up := RecoverNext(j);
        if !up { return false; }
        RecoveredTrans(old(s), s0, s);
        rest := rest - {j};
      }
      return true;
    }

    /** One directory: looked at, and closed if it is unfinished. */
    method RecoverNext(j: S.Job) returns (up: bool)
      requires Valid() && s.pc.Recovering?
      modifies this
      ensures Valid() && (if up then s.pc.Recovering? else s.pc.Down?)
      ensures up ==> Recovered(old(s), s) && (j in s.dirs ==> !S.Unfinished(s.dirs[j]))
      ensures up ==> forall k <- s.dirs :: S.Unfinished(s.dirs[k]) ==>
                k in old(s).dirs && S.Unfinished(old(s).dirs[k])
    {
      Interfere();
      ghost var s1 := s;
      QuietRecovers(old(s), s1);
      if j in s.dirs && s.dirs[j].claimed {
        SeeOne(j);
        up := RecoverSeen();
        if up { RecoveredTrans(old(s), s1, s); }
        return;
      }
      return true;
    }

    method RecoverSeen() returns (up: bool)
      requires Valid() && s.pc.Seen?
      modifies this
      ensures Valid() && (if up then s.pc.Recovering? && Recovered(old(s), s) else s.pc.Down?)
      ensures up ==> forall k <- s.dirs :: S.Unfinished(s.dirs[k]) ==>
                k != old(s).pc.job && k in old(s).dirs && S.Unfinished(old(s).dirs[k])
    {
      Interfere();
      ghost var s1 := s;
      QuietRecovers(old(s), s1);
      Missing(s.pc.job);
      if s.pc.job !in s.dirs { Crash(); return false; }     // no `exit` either, and no log to open
      RecoverOne();
      RecoveredTrans(old(s), s1, s);
      return true;
    }

    method SeeOne(j: S.Job)
      requires Valid() && S.Enabled(s, S.See(j))
      modifies this`s, this`acts
      ensures Valid() && s.pc == S.Seen(j) && s.dirs == old(s).dirs && s.submitted == old(s).submitted
    {
      Do(S.See(j));
    }

    /** `stop`: rounds of ending every job until the deadline, then every job left is marked lost.
        Unless an exception cut it short, no job is left without `exit`. */
    method Stop() returns (orderly: bool)
      requires Valid() && S.AtTop(s)
      modifies this
      ensures Valid() && s.pc.Down?
      ensures orderly ==> S.UnfinishedJobs(s) == {}
      ensures orderly ==> forall j <- old(s).running :: ClosedWith(s, j, 125)
    {
      BeginStop();
      var rounds: nat := *;
      orderly := EndAll(rounds);
      if !orderly { return false; }
      if s.running != {} {
        orderly := SweepAll();
        if !orderly { return false; }
      }
      NothingOpen();
      Quit();
      return true;
    }

    method BeginStop()
      requires Valid() && S.AtTop(s)
      modifies this`s, this`acts
      ensures Valid() && s.pc.Stopping? && s.running == old(s).running && s.dirs == old(s).dirs
      ensures s.running <= s.submitted
    {
      SpoolFacts();
      Do(S.Stop);
    }

    /** With every job closed or swept, no directory is unfinished. */
    lemma NothingOpen()
      requires Valid() && (s.pc.Stopping? || s.pc.Sweeping?) && s.running <= s.swept
      requires forall j <- s.running :: ClosedWith(s, j, 125)
      ensures S.UnfinishedJobs(s) == {}
    {
      S.ValidRun(S.Start(), acts);
    }

    /** The rounds of `stop` that its deadline leaves time for. */
    method EndAll(rounds: nat) returns (up: bool)
      requires Valid() && s.pc.Stopping?
      modifies this
      ensures Valid() && (if up then s.pc.Stopping? else s.pc.Down?)
      ensures up ==> old(s).submitted <= s.submitted
      ensures up ==> forall j <- old(s).running :: j in s.running || ClosedWith(s, j, 125)
    {
      SpoolFacts();
      var left := rounds;
      while s.running != {} && 0 < left
        invariant Valid() && s.pc.Stopping? && old(s).running <= old(s).submitted <= s.submitted
        invariant forall j <- old(s).running :: j in s.running || ClosedWith(s, j, 125)
        decreases left
      {
        ghost var s0 := s;
        SpoolFacts();
        up := PollAll(s.running, _ => 0);
        if !up { return false; }
        forall j | j in old(s).running - s0.running && j in s.dirs ensures s.dirs[j].exit == Some(125) {
          assert ClosedWith(s0, j, 125);
        }
        left := left - 1;
      }
      return true;
    }

    method Quit()
      requires Valid() && S.Enabled(s, S.Quit)
      modifies this
      ensures Valid() && s.pc.Down? && s.dirs == old(s).dirs
    {
      Do(S.Quit);
      Measure(M.Restart(0));
      termSent := map[];
    }

    method SweepClose(j: S.Job, readable: bool, stored: bool)
      requires Valid() && S.Enabled(s, S.Sweep(j, None))
      modifies this`s, this`acts, this`m, this`metered
      ensures Valid() && s.pc == S.SweepClosing(j) && Later(old(s), s, {j})
      ensures s.running == old(s).running && s.swept == old(s).swept
    {
      var reading := ReadWatch(j, readable);
      Do(S.Sweep(j, if stored then reading else None));
    }

    method SweepExit()
      requires Valid() && S.Enabled(s, S.SweepExit)
      modifies this`s, this`acts
      ensures Valid() && s.pc.Sweeping? && Later(old(s), s, {old(s).pc.job})
      ensures s.running == old(s).running && s.swept == old(s).swept + {old(s).pc.job}
      ensures ClosedWith(s, old(s).pc.job, 125)
    {
      Do(S.SweepExit);
    }

    method SweepOne(j: S.Job, readable: bool, stored: bool) returns (up: bool)
      requires Valid() && S.Enabled(s, S.Sweep(j, None))
      modifies this
      ensures Valid() && (if up then s.pc.Sweeping? else s.pc.Down?)
      ensures up ==> s.running == old(s).running && s.swept == old(s).swept + {j}
      ensures up ==> Later(old(s), s, {j}) && ClosedWith(s, j, 125)
    {
      SweepClose(j, readable, stored);
      ghost var s1 := s;
      Interfere();
      ghost var s2 := s;
      Missing(j);
      if j !in s.dirs { Crash(); return false; }            // `exit` cannot be written
      SweepExit();
      LaterTwice(old(s), s1, s2, s, j);
      return true;
    }

    method SweepAll() returns (up: bool)
      requires Valid() && s.pc.Stopping?
      modifies this
      ensures Valid() && (if up then s.pc.Sweeping? && s.running <= s.swept else s.pc.Down?)
      ensures up ==> s.running == old(s).running && forall j <- s.running :: ClosedWith(s, j, 125)
      ensures up ==> forall j <- old(s).submitted :: ClosedWith(old(s), j, 125) ==> ClosedWith(s, j, 125)
    {
      Deadline();
      var rest := s.running;
      while rest != {}
        invariant Valid() && s.pc.Sweeping? && s.running == old(s).running && old(s).submitted <= s.submitted
        invariant forall j <- old(s).submitted :: ClosedWith(old(s), j, 125) ==> ClosedWith(s, j, 125)
        invariant rest <= s.running <= rest + s.swept && s.swept !! rest && s.running <= s.submitted
        invariant forall j <- s.running :: j in rest || ClosedWith(s, j, 125)
        decreases rest
      {
        var j :| j in rest;
        up := SweepNext(j);
        if !up { return false; }
        rest := rest - {j};
      }
      return true;
    }

    method Deadline()
      requires Valid() && s.pc.Stopping?
      modifies this`s, this`acts
      ensures Valid() && s.pc.Sweeping? && s.running == old(s).running && s.swept == {}
      ensures s.dirs == old(s).dirs && s.submitted == old(s).submitted && s.running <= s.submitted
    {
      SpoolFacts();
      Do(S.Deadline);
    }

    method SweepNext(j: S.Job) returns (up: bool)
      requires Valid() && S.Enabled(s, S.Sweep(j, None))
      modifies this
      ensures Valid() && (if up then s.pc.Sweeping? else s.pc.Down?)
      ensures up ==> s.running == old(s).running && s.swept == old(s).swept + {j} && ClosedWith(s, j, 125)
      ensures up ==> old(s).submitted <= s.submitted
      ensures up ==> forall k <- old(s).submitted :: ClosedWith(old(s), k, 125) ==> ClosedWith(s, k, 125)
    {
      SpoolFacts();
      var readable: bool := *;
      var stored: bool := *;
      up := SweepOne(j, readable, stored);
    }

    /** `main`: recover, serve for as long as nothing asks it to stop, stop. With each heartbeat the old
        directories are pruned. */
    method Serve(passes: nat) returns (orderly: bool)
      requires Valid() && s.pc.Down?
      modifies this
      ensures Valid() && s.pc.Down?
      ensures orderly ==> S.UnfinishedJobs(s) == {}
    {
      var up := Recover();
      if !up { return false; }
      for i := 0 to passes
        invariant Valid() && S.AtTop(s)
      {
        var beat: bool := *;
        if beat { var pruned := PruneAll(); }
        var codes: S.Job -> int := *;
        up := Step(codes);
        if !up { return false; }
        Interfere();
      }
      orderly := Stop();
    }
  }
}
