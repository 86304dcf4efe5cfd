/** The client half of the spool (deploy/uitest/submit.py): follow a job's log to its end.

    Each look at the job's directory sees a later version of it. What a version may do to the one
    before is Spool.Onward, which every step of every run of the spool keeps (Spool.OnwardRun). */
module Follow {
  import opened Basics
  import S = Spool

  /** One look: the directory, and whether the runner's heartbeat was fresh then. */
  datatype Look = Look(dir: S.Dir, answering: bool)

  datatype Outcome =
    | Following                                     // the schedule of looks ended first
    | Ended(code: int, memory: Option<S.Measured>)
    | Lost                                          // exit code LOST
    | Withdrawn                                     // exit code 77: no runner took it

  /** The looks of one client at a directory that nobody removes. */
  ghost predicate Schedule(looks: seq<Look>) {
    forall i, j :: 0 <= i <= j < |looks| ==> S.Onward(looks[i].dir, looks[j].dir)
  }

  /** `log` is never taken back, so reading on from an offset reads what is new. */
  lemma ReadOn(a: string, b: string)
    requires a <= b
    ensures a + b[|a|..] == b
  {
  }

  // ---------------------------------------------------------------------- the turns

  /** Turn k looks for `exit` at look 3k, reads the log at 3k + 1 and asks for the heartbeat at 3k + 2
      (or, having seen `exit`, reads the result); its last look is 3k + 3. This one goes on. */
  predicate GoesOn(looks: seq<Look>, k: nat)
    requires 3 * k + 3 < |looks|
  {
    looks[3 * k].dir.exit.None? && looks[3 * k + 2].answering
  }

  /** And this one ends the follow so. */
  predicate EndsSo(looks: seq<Look>, k: nat, outcome: Outcome)
    requires 3 * k + 3 < |looks|
  {
    if looks[3 * k].dir.exit.Some? then
      && outcome.Ended? && looks[3 * k + 3].dir.exit == Some(outcome.code)
      && outcome.memory == looks[3 * k + 2].dir.result
    else
      && !looks[3 * k + 2].answering
      && outcome == if looks[3 * k + 3].dir.claimed then Lost else Withdrawn
  }

  /** The first `k` turns go on. */
  predicate Turns(looks: seq<Look>, k: nat) {
    (k > 0 ==> 3 * k < |looks|) && forall i: nat :: i < k ==> GoesOn(looks, i)
  }

  /** What a follow does with a schedule: it ends in the first turn that does not go on, with the log
      as that turn read it; and while every turn goes on, it has emitted the log as last read. */
  ghost predicate Followed(looks: seq<Look>, out: string, outcome: Outcome, read: nat) {
    exists k: nat :: Turns(looks, k) && FollowedTo(looks, k, out, outcome, read)
  }

  predicate FollowedTo(looks: seq<Look>, k: nat, out: string, outcome: Outcome, read: nat)
    requires Turns(looks, k)
  {
    if 3 * k + 3 >= |looks| then
      outcome.Following? && (if k == 0 then out == "" else read == 3 * k - 2 && out == looks[read].dir.log)
    else
      && !GoesOn(looks, k) && EndsSo(looks, k, outcome)
      && read == 3 * k + 1 && out == looks[read].dir.log
  }

  /** No `exit` up to turn k, no heartbeat in it, and then a look at `claimed`. */
  predicate GivesUp(looks: seq<Look>, k: nat, outcome: Outcome) {
    && 3 * k + 3 < |looks| && (forall i :: 0 <= i <= 3 * k ==> looks[i].dir.exit.None?)
    && !looks[3 * k + 2].answering && (outcome.Lost? <==> looks[3 * k + 3].dir.claimed)
  }

  /** Stream the log until `exit` appears. `read` is the look the log was last read at. */
  method Follow(looks: seq<Look>) returns (out: string, outcome: Outcome, read: nat)
    requires Schedule(looks)
    ensures Followed(looks, out, outcome, read)
    // on `exit` the whole log up to then has been emitted, once and in order, and `code` and
    // the reading are final
    ensures outcome.Ended? ==> EndedOk(looks, out, outcome, read)
    // without a heartbeat, a job that was claimed is lost, and one that was not is withdrawn
    ensures outcome.Lost? || outcome.Withdrawn? ==> exists k: nat :: GivesUp(looks, k, outcome)
  {
    out, outcome, read := "", Following, 0;
    var offset, k := 0, 0;
    while 3 * k + 3 < |looks|
      invariant Turns(looks, k) && outcome == Following && offset == |out|
      invariant if k == 0 then out == "" else read == 3 * k - 2 && out == looks[read].dir.log
      decreases |looks| - 3 * k
    {
      var done := looks[3 * k].dir.exit.Some?;      // before the log, so nothing is lost
      var log := looks[3 * k + 1].dir.log;
      if k > 0 { assert S.Onward(looks[read].dir, looks[3 * k + 1].dir); }
      ReadOn(out, log);
      var chunk := log[offset..];
      out := out + chunk;
      offset := offset + |chunk|;
      read := 3 * k + 1;
      if done {
        assert S.Onward(looks[3 * k].dir, looks[3 * k + 3].dir);
        outcome := Ended(looks[3 * k + 3].dir.exit.value, looks[3 * k + 2].dir.result);
        assert FollowedTo(looks, k, out, outcome, read);
        EndIsFinal(looks, out, outcome, read);
        return;
      }
      if !looks[3 * k + 2].answering {
        outcome := if looks[3 * k + 3].dir.claimed then Lost else Withdrawn;
        assert FollowedTo(looks, k, out, outcome, read);
        forall i | 0 <= i <= 3 * k ensures looks[i].dir.exit.None? {
          assert S.Onward(looks[i].dir, looks[3 * k].dir);
        }
        assert GivesUp(looks, k, outcome);
        return;
      }
      assert GoesOn(looks, k);
      k := k + 1;
    }
    assert FollowedTo(looks, k, out, outcome, read);
  }

  /** `exit` was there before the log was read, `out` is the log as it was then, and the code and the
      reading are those of every look from then on. */
  ghost predicate EndedOk(looks: seq<Look>, out: string, outcome: Outcome, read: nat) {
    && outcome.Ended? && read < |looks| && out == looks[read].dir.log
    && (exists seen :: 0 <= seen < read && looks[seen].dir.exit == Some(outcome.code))
    && forall i :: read <= i < |looks| ==>
         looks[i].dir.exit == Some(outcome.code) && looks[i].dir.result == outcome.memory
  }

  lemma EndIsFinal(looks: seq<Look>, out: string, outcome: Outcome, read: nat)
    requires Schedule(looks) && Followed(looks, out, outcome, read) && outcome.Ended?
    ensures EndedOk(looks, out, outcome, read)
  {
    var k: nat :| Turns(looks, k) && FollowedTo(looks, k, out, outcome, read);
    var seen := 3 * k;
    assert S.Onward(looks[seen].dir, looks[seen + 2].dir) && S.Onward(looks[seen].dir, looks[seen + 3].dir);
    forall i | read <= i < |looks|
      ensures looks[i].dir.exit == Some(outcome.code) && looks[i].dir.result == outcome.memory
    {
      assert S.Onward(looks[seen].dir, looks[i].dir);
    }
  }

  // ---------------------------------------------------------------------- looks at a real run

  /** The states a run passes through. */
  function Through(s: S.State, acts: seq<S.Action>): (states: seq<S.State>)
    requires S.Run(s, acts)
    ensures |states| == |acts| + 1
    decreases acts
  {
    [s] + if acts == [] then [] else Through(S.Apply(s, acts[0]), acts[1..])
  }

  /** Look i is taken of the state after the first at[i] steps of the run; a client looks whenever it
      comes round to it, at the same state as before or at a later one. */
  ghost predicate Taken(s: S.State, acts: seq<S.Action>, job: S.Job, at: seq<nat>, looks: seq<Look>)
    requires S.Run(s, acts)
  {
    && |at| == |looks|
    && (forall i :: 0 <= i < |at| ==> at[i] <= |acts|)
    && (forall i, j :: 0 <= i <= j < |at| ==> at[i] <= at[j])
    && forall i :: 0 <= i < |looks| ==>
         var t := Through(s, acts)[at[i]];
         job in t.dirs && looks[i].dir == t.dirs[job]
  }

  /** State n of a run is where its first n steps lead, and the rest of it is a run from there. */
  lemma {:induction false} ThroughAt(s: S.State, acts: seq<S.Action>, n: nat)
    requires S.Run(s, acts) && n <= |acts|
    ensures
      var t := Through(s, acts)[n];
      S.Run(t, acts[n..]) && S.Exec(t, acts[n..]) == S.Exec(s, acts) && (S.Valid(s) ==> S.Valid(t))
    decreases n
  {
    if n == 0 {
      assert acts[0..] == acts;
    } else {
      if S.Valid(s) { S.ValidStep(s, acts[0]); }
      ThroughAt(S.Apply(s, acts[0]), acts[1..], n - 1);
      assert acts[1..][n - 1..] == acts[n..];
    }
  }

  lemma {:induction false} ThroughOnward(s: S.State, acts: seq<S.Action>, m: nat, n: nat, job: S.Job)
    requires S.Valid(s) && S.Run(s, acts) && m <= n <= |acts|
    requires job in Through(s, acts)[m].dirs && job in Through(s, acts)[n].dirs
    ensures S.Onward(Through(s, acts)[m].dirs[job], Through(s, acts)[n].dirs[job])
    decreases n
  {
    if m > 0 {
      S.ValidStep(s, acts[0]);
      ThroughOnward(S.Apply(s, acts[0]), acts[1..], m - 1, n - 1, job);
    } else {
      ThroughTo(s, acts, n);
      S.OnwardRun(s, acts[..n], job);
    }
  }

  lemma {:induction false} ThroughTo(s: S.State, acts: seq<S.Action>, n: nat)
    requires S.Run(s, acts) && n <= |acts|
    ensures S.Run(s, acts[..n]) && S.Exec(s, acts[..n]) == Through(s, acts)[n]
    decreases n
  {
    if n > 0 {
      ThroughTo(S.Apply(s, acts[0]), acts[1..], n - 1);
      assert acts[..n][1..] == acts[1..][..n - 1];
    }
  }

  /** Whatever the runner, the processes and other clients do, and whenever the client looks, what it
      sees of a job that stays in the spool is a schedule. */
  lemma RunsAreSchedules(s: S.State, acts: seq<S.Action>, job: S.Job, at: seq<nat>,
                                            looks: seq<Look>)
    requires S.Valid(s) && S.Run(s, acts) && Taken(s, acts, job, at, looks)
    ensures Schedule(looks)
  {
    forall i, j | 0 <= i <= j < |looks| ensures S.Onward(looks[i].dir, looks[j].dir) {
      ThroughOnward(s, acts, at[i], at[j], job);
    }
  }

  // ---------------------------------------------------------------------- is the output complete?

  /** What a follow that ended on `exit` has emitted is the final log, whatever happens next, exactly
      when no process still holds the log at the moment it is read. The runner closes a job when the
      process it started has exited; one that this process left behind may still write. */
  lemma CompleteIff(s: S.State, acts: seq<S.Action>, job: S.Job, at: seq<nat>, looks: seq<Look>,
                                       out: string, outcome: Outcome, read: nat)
    requires S.Valid(s) && S.Run(s, acts) && Taken(s, acts, job, at, looks)
    requires Followed(looks, out, outcome, read) && outcome.Ended?
    ensures read < |looks|
    ensures
      var t := Through(s, acts)[at[read]];
      && job in t.dirs && t.dirs[job].exit == Some(outcome.code) && out == t.dirs[job].log
      && t.dirs[job].result == outcome.memory
      && (job !in t.writers <==> forall more :: S.KeepsLog(t, more, job))
      && (job !in t.writers && job in S.Exec(s, acts).dirs ==> out == S.Exec(s, acts).dirs[job].log)
  {
    RunsAreSchedules(s, acts, job, at, looks);
    EndIsFinal(looks, out, outcome, read);
    var t := Through(s, acts)[at[read]];
    ThroughAt(s, acts, at[read]);
    assert looks[read].dir == t.dirs[job];
    S.LogFinalIff(t, job);
    if job !in t.writers { assert S.KeepsLog(t, acts[at[read]..], job); }
  }

  /** The runner closes a job whose process has exited, and a process that one left behind writes. */
  lemma ClosedThenWritten(s: S.State, j: S.Job) returns (t: S.State, u: S.State, v: S.State, w: S.State)
    requires S.AtTop(s) && j in s.dirs && j in s.running && j in s.leaders && j in s.writers
    ensures S.Step(s, S.LeaderExits(j), t) && S.Step(t, S.Close(j, 0, None), u)
    ensures S.Step(u, S.WriteExit, v) && S.Step(v, S.Writes(j, "late"), w)
    ensures j in v.dirs && v.dirs[j].exit == Some(0) && v.dirs[j].result == s.dirs[j].result
    ensures j in w.dirs && w.dirs[j].log == v.dirs[j].log + "late"
  {
    t := S.Apply(s, S.LeaderExits(j));
    u := S.Apply(t, S.Close(j, 0, None));
    v := S.Apply(u, S.WriteExit);
    w := S.Apply(v, S.Writes(j, "late"));
  }

  /** A client that looks only after `exit` is there ends at once, with the log as it is then. */
  lemma FollowedClosed(look: Look, code: int, out: string, outcome: Outcome, read: nat)
    requires look.dir.exit == Some(code) && Followed([look, look, look, look], out, outcome, read)
    ensures outcome == Ended(code, look.dir.result) && out == look.dir.log
  {
    var looks := [look, look, look, look];
    var k: nat :| Turns(looks, k) && FollowedTo(looks, k, out, outcome, read);
    assert !GoesOn(looks, 0);
  }

  /** The client misses what was written to a closed job after it read the log. */
  ghost predicate Misses(s: S.State, acts: seq<S.Action>, job: S.Job, at: seq<nat>, looks: seq<Look>)
    requires S.Run(s, acts)
  {
    && Taken(s, acts, job, at, looks) && job in S.Exec(s, acts).dirs
    && forall out, outcome, read :: Followed(looks, out, outcome, read) ==>
         outcome.Ended? && out != S.Exec(s, acts).dirs[job].log
  }

  function ClosedActs(job: S.Job): (acts: seq<S.Action>)
    ensures |acts| == 7
  {
    S.Begun(job) + [S.Claim] + [S.LeaderExits(job), S.Close(job, 0, None), S.WriteExit]
  }

  function LateActs(job: S.Job): seq<S.Action> {
    ClosedActs(job) + [S.Writes(job, "late")]
  }

  lemma ClosedRun(s: S.State, job: S.Job) returns (v: S.State, w: S.State)
    requires S.Valid(s) && S.AtTop(s) && S.Pending(s, job)
    ensures S.Run(s, ClosedActs(job)) && S.Exec(s, ClosedActs(job)) == v
    ensures S.Step(v, S.Writes(job, "late"), w) && job in v.dirs && v.dirs[job].exit == Some(0)
    ensures job in w.dirs && w.dirs[job].log == v.dirs[job].log + "late"
  {
    var s1 := S.UpAndRunning(s, job);
    var s2, s3;
    s2, s3, v, w := ClosedThenWritten(s1, job);
    S.Three(s1, S.LeaderExits(job), s2, S.Close(job, 0, None), s3, S.WriteExit, v);
    S.Joined(s, S.Begun(job) + [S.Claim], [S.LeaderExits(job), S.Close(job, 0, None), S.WriteExit]);
  }

  lemma LateRun(s: S.State, job: S.Job) returns (v: S.State, w: S.State)
    requires S.Valid(s) && S.AtTop(s) && S.Pending(s, job)
    ensures S.Run(s, LateActs(job)) && S.Exec(s, LateActs(job)) == w && Through(s, LateActs(job))[7] == v
    ensures job in v.dirs && v.dirs[job].exit == Some(0)
    ensures job in w.dirs && w.dirs[job].log == v.dirs[job].log + "late"
  {
    v, w := ClosedRun(s, job);
    S.One(v, S.Writes(job, "late"), w);
    S.Joined(s, ClosedActs(job), [S.Writes(job, "late")]);
    ThroughTo(s, LateActs(job), 7);
    assert LateActs(job)[..7] == ClosedActs(job);
  }

  lemma TakenAt(s: S.State, acts: seq<S.Action>, job: S.Job, n: nat, look: Look)
    requires S.Run(s, acts) && n <= |acts| && job in Through(s, acts)[n].dirs
    requires look.dir == Through(s, acts)[n].dirs[job]
    ensures Taken(s, acts, job, [n, n, n, n], [look, look, look, look])
  {
  }

  /** An ordinary run in which the output is not complete: the job's process exits, leaves another
      behind and is closed; the client follows it to its end; then the other writes. */
  lemma LateWriteIsMissed(s: S.State, job: S.Job)
    requires S.Valid(s) && S.AtTop(s) && S.Pending(s, job)
    ensures S.Run(s, LateActs(job)) && exists at, looks :: Misses(s, LateActs(job), job, at, looks)
  {
    var v, w := LateRun(s, job);
    var look := Look(v.dirs[job], true);
    TakenAt(s, LateActs(job), job, 7, look);
    forall out, outcome, read | Followed([look, look, look, look], out, outcome, read)
      ensures outcome.Ended? && out != w.dirs[job].log
    {
      FollowedClosed(look, 0, out, outcome, read);
      assert |w.dirs[job].log| > |out|;
    }
    assert Misses(s, LateActs(job), job, [7, 7, 7, 7], [look, look, look, look]);
  }
}
