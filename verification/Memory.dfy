/** One job's peak memory (deploy/uitest/cgroupmem.py): the memory cgroup is the container's, not
    the job's, so each reading says what it bounds. `exact` is the kernel's mark, reset for this
    job; `upper` is a mark that also covers other jobs; `lower` is a sampled value.

    The kernel is an oracle: the current usage, and a high-water mark that can be reset. The trace
    records every moment of the container's life, with the jobs that were running in it. */
module Memory {
  import opened Basics

  type Job = string

  datatype Moment = Moment(usage: nat, running: set<Job>)

  datatype Bound = Exact | Upper | Lower

  datatype Reading = Reading(peak: nat, bound: Bound, samples: nat, overlapped: bool,
                             lifetime: Option<nat>)

  /** What opening a watch finds: a cgroup directory, a `memory.peak` in it, whether that can be
      reset, and a `memory.current`. */
  datatype Kernel = Kernel(where: bool, hasPeak: bool, resettable: bool, hasCurrent: bool)

  /** `since` is the moment the watch was opened at. */
  datatype Watch = Watch(where: bool, overlapped: bool, reset: bool, sampling: bool,
                         samples: nat, sampled: Option<nat>, since: nat)

  function OpenWatch(k: Kernel, exclusive: bool, since: nat): Watch {
    var reset := k.where && k.hasPeak && exclusive && k.resettable;
    Watch(k.where, !exclusive, reset, k.where && !reset && k.hasCurrent, 0, None, since)
  }

  function TakeSample(w: Watch, value: nat): Watch {
    w.(samples := w.samples + 1,
       sampled := Some(if w.sampled.None? then value else Max(w.sampled.value, value)))
  }

  /** The reading at the job's end; `lifetime` is `memory.peak` then, None when it cannot be read. */
  function ReadBack(w: Watch, lifetime: Option<nat>): Option<Reading> {
    if !w.where then None
    else if w.sampled.Some? then
      Some(Reading(w.sampled.value, Lower, w.samples, w.overlapped, lifetime))
    else if lifetime.None? then None
    else
      var bound := if w.reset && !w.overlapped then Exact else Upper;
      Some(Reading(lifetime.value, bound, 0, w.overlapped, None))
  }

  // ---------------------------------------------------------------------- the container

  /** A job that ended: its watch, the last moment of its window and its reading. */
  datatype Finished = Finished(job: Job, watch: Watch, closed: nat, reading: Option<Reading>)

  datatype Meter = Meter(trace: seq<Moment>, mark: nat, resetAt: nat,
                         live: map<Job, Watch>, opening: Option<(Job, Watch)>,
                         done: seq<Finished>)

  function Usage(m: Meter): nat {
    if m.trace == [] then 0 else m.trace[|m.trace| - 1].usage
  }

  /** Time passes: the usage is `v` now, and the kernel's mark follows it. */
  function Tick(m: Meter, v: nat): Meter {
    m.(trace := m.trace + [Moment(v, m.live.Keys)], mark := Max(m.mark, v))
  }

  function Fresh(usage: nat): Meter {
    Meter([Moment(usage, {})], usage, 0, map[], None, [])
  }

  datatype Action =
    | Uses(v: nat)                           // the container's usage changes
    | Open(job: Job, kernel: Kernel)         // start: the watch is opened
    | Started                                // start: the process runs, the others are told
    | NotStarted                             // start: the process could not be started
    | Sample(job: Job)                       // a sampler reads memory.current
    | Finish(job: Job, readable: bool)       // the job ended
    | Restart(v: nat)                        // the container restarts with a fresh cgroup

  /** The watch is open and its sampler may already run, but the job's process is not up yet. */
  predicate Opening(m: Meter, job: Job) {
    job !in m.live && m.opening.Some? && m.opening.value.0 == job
  }

  predicate Enabled(m: Meter, a: Action) {
    match a
    case Uses(_) => true
    case Open(job, _) => m.opening.None? && job !in m.live
    case Started => m.opening.Some?
    case NotStarted => m.opening.Some?
    case Sample(job) =>
      || (job in m.live && m.live[job].sampling)
      || (Opening(m, job) && m.opening.value.1.sampling)
    case Finish(job, _) => job in m.live && m.trace != []
    case Restart(_) => true
  }

  function Apply(m: Meter, a: Action): Meter
    requires Enabled(m, a)
  {
    match a
    case Uses(v) => Tick(m, v)
    case Open(job, k) =>
      var w := OpenWatch(k, m.live == map[], |m.trace|);
      var m := if w.reset then m.(mark := Usage(m), resetAt := |m.trace|) else m;
      Tick(m.(opening := Some((job, w))), Usage(m))
    case Started =>
      var (job, w) := m.opening.value;
      var others := map j | j in m.live :: m.live[j].(overlapped := true);
      Tick(m.(live := others[job := w], opening := None), Usage(m))
    case NotStarted => m.(opening := None)
    case Sample(job) =>
      if job in m.live then m.(live := m.live[job := TakeSample(m.live[job], Usage(m))])
      else m.(opening := Some((job, TakeSample(m.opening.value.1, Usage(m)))))
    case Finish(job, readable) =>
      var w := m.live[job];
      var reading := ReadBack(w, if readable then Some(m.mark) else None);
      Tick(m.(live := m.live - {job}, done := m.done + [Finished(job, w, |m.trace| - 1, reading)]),
           Usage(m))
    case Restart(v) =>
      m.(trace := m.trace + [Moment(v, {})], mark := v, resetAt := |m.trace|,
         live := map[], opening := None)
  }

  predicate Run(m: Meter, acts: seq<Action>)
    decreases acts
  {
    acts == [] || (Enabled(m, acts[0]) && Run(Apply(m, acts[0]), acts[1..]))
  }

  function Exec(m: Meter, acts: seq<Action>): Meter
    requires Run(m, acts)
    decreases acts
  {
    if acts == [] then m else Exec(Apply(m, acts[0]), acts[1..])
  }

  // ---------------------------------------------------------------------- what a tag means

  function Peak(window: seq<Moment>): nat {
    if window == [] then 0
    else Max(Peak(window[..|window| - 1]), window[|window| - 1].usage)
  }

  predicate Alone(window: seq<Moment>, job: Job) {
    forall k :: 0 <= k < |window| ==> window[k].running <= {job}
  }

  predicate Attained(window: seq<Moment>, v: nat) {
    exists k :: 0 <= k < |window| && window[k].usage == v
  }

  /** A reading over the job's window: exactly when the mark was reset and no other job ran in the
      window is it exact, and then it is the true peak; an upper one and a carried lifetime mark
      are never below the true peak; a lower one is a usage that did occur. */
  predicate Sound(window: seq<Moment>, job: Job, w: Watch, r: Reading) {
    && (r.bound.Exact? <==> w.reset && Alone(window, job))
    && (r.bound.Exact? ==> r.peak == Peak(window))
    && (r.bound.Upper? ==> r.peak >= Peak(window))
    && (r.bound.Lower? ==> r.peak <= Peak(window) && Attained(window, r.peak))
    && (r.lifetime.Some? ==> r.lifetime.value >= Peak(window))
    && (r.overlapped <==> !Alone(window, job))
  }

  function Window(m: Meter, f: Finished): seq<Moment>
    requires f.watch.since <= f.closed < |m.trace|
  {
    m.trace[f.watch.since..f.closed + 1]
  }

  // ---------------------------------------------------------------------- the invariant

  lemma {:induction false} PeakSuffix(window: seq<Moment>, i: nat)
    requires i <= |window|
    ensures Peak(window[i..]) <= Peak(window)
  {
    if i < |window| {
      assert window[i..][..|window| - i - 1] == window[..|window| - 1][i..];
      PeakSuffix(window[..|window| - 1], i);
    }
  }

  lemma {:induction false} PeakAttained(window: seq<Moment>, k: nat)
    requires k < |window|
    ensures window[k].usage <= Peak(window)
  {
    if k < |window| - 1 { PeakAttained(window[..|window| - 1], k); }
  }

  lemma PeakAppend(window: seq<Moment>, x: Moment)
    ensures Peak(window + [x]) == Max(Peak(window), x.usage)
  {
    assert (window + [x])[..|window|] == window;
  }

  /** A watch that is open: its window runs to the present. */
  predicate Watching(m: Meter, job: Job, w: Watch)
    requires m.resetAt < |m.trace|
  {
    && m.resetAt <= w.since < |m.trace|
    && (w.reset ==> m.resetAt == w.since && w.where && !w.sampling)
    && (w.sampled.Some? ==> w.sampling && Attained(m.trace[w.since..], w.sampled.value))
    && (w.overlapped <==> !Alone(m.trace[w.since..], job))
  }

  predicate MarkOk(m: Meter) {
    && m.trace != [] && m.trace[|m.trace| - 1].running == m.live.Keys
    && m.resetAt < |m.trace| && m.mark == Peak(m.trace[m.resetAt..])
  }

  predicate WatchesOk(m: Meter)
    requires m.resetAt < |m.trace|
  {
    && (forall j <- m.live :: Watching(m, j, m.live[j]))
    && (m.opening.Some? ==>
          var (job, w) := m.opening.value;
          && job !in m.live && Watching(m, job, w)
          && (!w.overlapped ==> m.live == map[]))
  }

  predicate Valid(m: Meter) {
    MarkOk(m) && WatchesOk(m) && DoneOk(m.trace, m.done)
  }

  predicate DoneOk(trace: seq<Moment>, done: seq<Finished>) {
    forall f <- done :: FinishedOk(trace, f)
  }

  predicate FinishedOk(trace: seq<Moment>, f: Finished) {
    && f.watch.since <= f.closed < |trace|
    && (f.reading.Some? ==>
          Sound(trace[f.watch.since..f.closed + 1], f.job, f.watch, f.reading.value))
  }

  lemma AloneAppend(window: seq<Moment>, x: Moment, job: Job)
    ensures Alone(window + [x], job) <==> Alone(window, job) && x.running <= {job}
  {
    var longer := window + [x];
    assert longer[|window|] == x;
    if Alone(longer, job) {
      forall k | 0 <= k < |window| ensures window[k].running <= {job} {
        assert longer[k] == window[k];
      }
    }
  }

  lemma AttainedAppend(window: seq<Moment>, x: Moment, v: nat)
    requires Attained(window, v)
    ensures Attained(window + [x], v)
  {
    var k :| 0 <= k < |window| && window[k].usage == v;
    assert (window + [x])[k].usage == v;
  }

  /** A moment passes over an open watch; `other` says another job runs in it. */
  lemma WatchingTick(m: Meter, m': Meter, job: Job, w: Watch, other: bool)
    requires m.resetAt < |m.trace| && Watching(m, job, w)
    requires |m'.trace| == |m.trace| + 1 && m'.trace[..|m.trace|] == m.trace
    requires m'.resetAt == m.resetAt
    requires other <==> !(m'.trace[|m.trace|].running <= {job})
    ensures Watching(m', job, w.(overlapped := w.overlapped || other))
  {
    var x := m'.trace[|m.trace|];
    assert m'.trace[w.since..] == m.trace[w.since..] + [x];
    AloneAppend(m.trace[w.since..], x, job);
    if w.sampled.Some? { AttainedAppend(m.trace[w.since..], x, w.sampled.value); }
  }

  lemma DoneKept(trace: seq<Moment>, x: Moment, f: Finished)
    requires FinishedOk(trace, f)
    ensures FinishedOk(trace + [x], f)
  {
    assert (trace + [x])[f.watch.since..f.closed + 1] == trace[f.watch.since..f.closed + 1];
  }

  lemma DoneTick(trace: seq<Moment>, x: Moment, done: seq<Finished>)
    requires DoneOk(trace, done)
    ensures DoneOk(trace + [x], done)
  {
    forall f | f in done ensures FinishedOk(trace + [x], f) { DoneKept(trace, x, f); }
  }

  lemma MarkTick(trace: seq<Moment>, from: nat, x: Moment)
    requires from <= |trace|
    ensures Peak((trace + [x])[from..]) == Max(Peak(trace[from..]), x.usage)
  {
    assert (trace + [x])[from..] == trace[from..] + [x];
    PeakAppend(trace[from..], x);
  }

  /** A moment in which nobody new runs leaves every open watch as it is. */
  lemma QuietTick(m: Meter, m': Meter, x: Moment, job: Job, w: Watch)
    requires Valid(m)
    requires (job in m.live && w == m.live[job]) || m.opening == Some((job, w))
    requires m'.trace == m.trace + [x] && m'.resetAt == m.resetAt && x.running <= m.live.Keys
    ensures Watching(m', job, w)
  {
    var n := |m.trace|;
    assert m.trace[w.since..][n - 1 - w.since] == m.trace[n - 1];
    WatchingTick(m, m', job, w, !(x.running <= {job}));
  }

  lemma ValidUses(m: Meter, v: nat)
    requires Valid(m)
    ensures Valid(Tick(m, v))
  {
    var m' := Tick(m, v);
    var x := Moment(v, m.live.Keys);
    MarkTick(m.trace, m.resetAt, x);
    forall j | j in m.live ensures Watching(m', j, m.live[j]) { QuietTick(m, m', x, j, m.live[j]); }
    if m.opening.Some? { QuietTick(m, m', x, m.opening.value.0, m.opening.value.1); }
    DoneTick(m.trace, x, m.done);
  }

  /** A watch opened now watches a window of one moment. */
  lemma WatchingNow(m': Meter, job: Job, w: Watch, x: Moment)
    requires m'.trace != [] && m'.trace[|m'.trace| - 1] == x && w.since == |m'.trace| - 1
    requires m'.resetAt <= w.since && w.sampled.None?
    requires w.reset ==> m'.resetAt == w.since && w.where && !w.sampling
    requires w.overlapped <==> !(x.running <= {job})
    ensures Watching(m', job, w)
  {
    assert m'.trace[w.since..] == [x];
    AloneAppend([], x, job);
    assert [] + [x] == [x];
  }

  lemma ValidOpen(m: Meter, job: Job, k: Kernel)
    requires Valid(m) && Enabled(m, Open(job, k))
    ensures Valid(Apply(m, Open(job, k)))
  {
    var w := OpenWatch(k, m.live == map[], |m.trace|);
    var x := Moment(Usage(m), m.live.Keys);
    var m' := Apply(m, Open(job, k));
    assert m'.trace == m.trace + [x];
    if m.live != map[] {
      var j :| j in m.live;
      assert j in x.running && j != job;
    } else {
      assert x.running == {};
    }
    WatchingNow(m', job, w, x);
    if w.reset {
      assert m'.trace[m'.resetAt..] == [x] && Peak([x]) == x.usage;
    } else {
      MarkTick(m.trace, m.resetAt, x);
      forall j | j in m.live ensures Watching(m', j, m.live[j]) { QuietTick(m, m', x, j, m.live[j]); }
    }
    DoneTick(m.trace, x, m.done);
  }

  /** The watch of the job that starts, and those of the jobs it joins. */
  lemma StartedWatches(m: Meter, x: Moment)
    requires Valid(m) && Enabled(m, Started) && x == Moment(Usage(m), m.live.Keys + {m.opening.value.0})
    ensures var m' := Apply(m, Started); forall j <- m'.live :: Watching(m', j, m'.live[j])
  {
    var (job, w) := m.opening.value;
    var m' := Apply(m, Started);
    assert m'.live.Keys == x.running;
    assert m'.trace == m.trace + [x];
    forall j | j in m.live ensures Watching(m', j, m'.live[j]) {
      assert job in x.running && job != j;
      WatchingTick(m, m', j, m.live[j], true);
    }
    if m.live == map[] {
      assert x.running == {job};
      WatchingTick(m, m', job, w, false);
    } else {
      var j :| j in m.live;
      assert j in x.running && j != job;
      WatchingTick(m, m', job, w, true);
    }
  }

  lemma ValidStarted(m: Meter)
    requires Valid(m) && Enabled(m, Started)
    ensures Valid(Apply(m, Started))
  {
    var m' := Apply(m, Started);
    var x := Moment(Usage(m), m.live.Keys + {m.opening.value.0});
    assert m'.live.Keys == x.running;
    assert m'.trace == m.trace + [x];
    StartedWatches(m, x);
    MarkTick(m.trace, m.resetAt, x);
    DoneTick(m.trace, x, m.done);
  }

  lemma SampledNow(m: Meter, job: Job, w: Watch)
    requires m.resetAt < |m.trace| && Watching(m, job, w) && w.sampling
    ensures Watching(m, job, TakeSample(w, Usage(m)))
  {
    var window := m.trace[w.since..];
    assert window[|window| - 1].usage == Usage(m);
    assert Attained(window, Usage(m));
  }

  lemma ValidSampleLive(m: Meter, job: Job)
    requires Valid(m) && Enabled(m, Sample(job)) && job in m.live
    ensures Valid(Apply(m, Sample(job)))
  {
    var m' := Apply(m, Sample(job));
    SampledNow(m, job, m.live[job]);
    assert m'.live.Keys == m.live.Keys;
    forall j | j in m'.live ensures Watching(m', j, m'.live[j]) {
      assert Watching(m, j, m'.live[j]);
    }
  }

  lemma ValidSample(m: Meter, job: Job)
    requires Valid(m) && Enabled(m, Sample(job))
    ensures Valid(Apply(m, Sample(job)))
  {
    if job in m.live {
      ValidSampleLive(m, job);
    } else {
      var m' := Apply(m, Sample(job));
      SampledNow(m, job, m.opening.value.1);
      forall j | j in m'.live ensures Watching(m', j, m'.live[j]) {
        assert Watching(m, j, m'.live[j]);
      }
    }
  }

  /** The reading taken now is sound for the window that ends now: no reset can have happened
      since the watch was opened, because only a job with nobody else running resets. */
  lemma ReadingSound(m: Meter, job: Job, w: Watch, readable: bool)
    requires Valid(m) && Watching(m, job, w)
    ensures
      var r := ReadBack(w, if readable then Some(m.mark) else None);
      r.Some? ==> Sound(m.trace[w.since..], job, w, r.value)
  {
    var window := m.trace[w.since..];
    assert m.trace[m.resetAt..][w.since - m.resetAt..] == window;
    PeakSuffix(m.trace[m.resetAt..], w.since - m.resetAt);
    if w.sampled.Some? {
      var k :| 0 <= k < |window| && window[k].usage == w.sampled.value;
      PeakAttained(window, k);
    }
  }

  lemma Judged(m: Meter, job: Job, w: Watch, readable: bool)
    requires Valid(m) && Watching(m, job, w)
    ensures FinishedOk(m.trace, Finished(job, w, |m.trace| - 1, ReadBack(w, if readable then Some(m.mark) else None)))
  {
    ReadingSound(m, job, w, readable);
    SoundToTheEnd(m.trace, job, w, ReadBack(w, if readable then Some(m.mark) else None));
  }

  lemma SoundToTheEnd(trace: seq<Moment>, job: Job, w: Watch, reading: Option<Reading>)
    requires w.since < |trace| && (reading.Some? ==> Sound(trace[w.since..], job, w, reading.value))
    ensures FinishedOk(trace, Finished(job, w, |trace| - 1, reading))
  {
    assert trace[w.since..|trace| - 1 + 1] == trace[w.since..];
  }

  lemma MarkFinish(m: Meter, job: Job, readable: bool)
    requires MarkOk(m) && Enabled(m, Finish(job, readable))
    ensures MarkOk(Apply(m, Finish(job, readable)))
  {
    MarkTick(m.trace, m.resetAt, Moment(Usage(m), m.live.Keys - {job}));
    assert Apply(m, Finish(job, readable)).live.Keys == m.live.Keys - {job};
  }

  lemma WatchesFinish(m: Meter, job: Job, readable: bool)
    requires Valid(m) && Enabled(m, Finish(job, readable))
    ensures
      var m' := Apply(m, Finish(job, readable));
      m'.resetAt < |m'.trace| && WatchesOk(m')
  {
    var m' := Apply(m, Finish(job, readable));
    var x := Moment(Usage(m), m'.live.Keys);
    forall j | j in m'.live ensures Watching(m', j, m'.live[j]) { QuietTick(m, m', x, j, m.live[j]); }
    if m.opening.Some? { QuietTick(m, m', x, m.opening.value.0, m.opening.value.1); }
  }

  lemma DoneFinish(m: Meter, job: Job, readable: bool)
    requires Valid(m) && Enabled(m, Finish(job, readable))
    ensures
      var m' := Apply(m, Finish(job, readable));
      DoneOk(m'.trace, m'.done)
  {
    var w := m.live[job];
    var f := Finished(job, w, |m.trace| - 1, ReadBack(w, if readable then Some(m.mark) else None));
    Judged(m, job, w, readable);
    var m' := Apply(m, Finish(job, readable));
    assert m'.done == m.done + [f];
    DoneTick(m.trace, Moment(Usage(m), m'.live.Keys), m.done + [f]);
  }

  lemma ValidFinish(m: Meter, job: Job, readable: bool)
    requires Valid(m) && Enabled(m, Finish(job, readable))
    ensures Valid(Apply(m, Finish(job, readable)))
  {
    MarkFinish(m, job, readable);
    WatchesFinish(m, job, readable);
    DoneFinish(m, job, readable);
  }

  lemma ValidStep(m: Meter, a: Action)
    requires Valid(m) && Enabled(m, a)
    ensures Valid(Apply(m, a))
  {
    match a
    case Uses(v) => ValidUses(m, v);
    case Open(job, k) => ValidOpen(m, job, k);
    case Started => ValidStarted(m);
    case NotStarted =>
      forall j | j in m.live ensures Watching(Apply(m, a), j, m.live[j]) {
        assert Watching(m, j, m.live[j]);
      }
    case Sample(job) => ValidSample(m, job);
    case Finish(job, readable) => ValidFinish(m, job, readable);
    case Restart(v) =>
      var x := Moment(v, {});
      var m' := Apply(m, a);
      assert m'.trace[m'.resetAt..] == [x] && Peak([x]) == v;
      DoneTick(m.trace, x, m.done);
  }

  lemma {:induction false} ValidRun(m: Meter, acts: seq<Action>)
    requires Valid(m) && Run(m, acts)
    ensures Valid(Exec(m, acts))
    decreases acts
  {
    if acts != [] {
      ValidStep(m, acts[0]);
      ValidRun(Apply(m, acts[0]), acts[1..]);
    }
  }

  // ---------------------------------------------------------------------- which tag, and what is in it

  /** What a run says of a job: how its last watch was opened, whether any other job was running then,
      and the usages its sampler has read since. */
  datatype Past = Unopened | Opened(kernel: Kernel, alone: bool, read: seq<nat>)

  function PastNext(m: Meter, a: Action, job: Job, past: Past): Past {
    if a.Open? && a.job == job then Opened(a.kernel, m.live == map[], [])
    else if a.Sample? && a.job == job && past.Opened? then past.(read := past.read + [Usage(m)])
    else past
  }

  function History(m: Meter, acts: seq<Action>, job: Job, past: Past): Past
    requires Run(m, acts)
    decreases acts
  {
    if acts == [] then past else History(Apply(m, acts[0]), acts[1..], job, PastNext(m, acts[0], job, past))
  }

  /** The mark can be reset for a job that is alone when its watch is opened. */
  predicate Resets(past: Past)
    requires past.Opened?
  {
    past.alone && past.kernel.where && past.kernel.hasPeak && past.kernel.resettable
  }

  predicate Largest(xs: seq<nat>, v: nat) {
    v in xs && forall x <- xs :: x <= v
  }

  /** The watch is as the run says. */
  predicate Agrees(w: Watch, past: Past) {
    && past.Opened? && w.where == past.kernel.where && w.reset == Resets(past)
    && (w.sampling <==> past.kernel.where && past.kernel.hasCurrent && !Resets(past))
    && w.samples == |past.read| && (w.sampled.Some? <==> past.read != [])
    && (w.sampled.Some? ==> Largest(past.read, w.sampled.value))
  }

  predicate AllAgree(m: Meter, job: Job, past: Past) {
    && (job in m.live ==> Agrees(m.live[job], past))
    && (Opening(m, job) ==> Agrees(m.opening.value.1, past))
  }

  lemma LargestNext(xs: seq<nat>, v: nat, x: nat)
    requires Largest(xs, v)
    ensures Largest(xs + [x], if v < x then x else v)
  {
    assert (xs + [x])[|xs|] == x;
    var k :| 0 <= k < |xs| && xs[k] == v;
    assert (xs + [x])[k] == v;
  }

  lemma SampleAgrees(w: Watch, past: Past, v: nat)
    requires Agrees(w, past)
    ensures Agrees(TakeSample(w, v), past.(read := past.read + [v]))
  {
    if past.read == [] {
      assert past.read + [v] == [v];
    } else {
      LargestNext(past.read, w.sampled.value, v);
    }
  }

  lemma AgreesStep(m: Meter, a: Action, job: Job, past: Past)
    requires AllAgree(m, job, past) && Enabled(m, a)
    requires m.opening.Some? ==> m.opening.value.0 !in m.live
    ensures AllAgree(Apply(m, a), job, PastNext(m, a, job, past))
  {
    if a.Sample? && a.job == job {
      SampleAgrees(if job in m.live then m.live[job] else m.opening.value.1, past, Usage(m));
    }
  }

  lemma {:induction false} AgreesRun(m: Meter, acts: seq<Action>, job: Job, past: Past)
    requires Valid(m) && AllAgree(m, job, past) && Run(m, acts)
    ensures AllAgree(Exec(m, acts), job, History(m, acts, job, past))
    decreases acts
  {
    if acts != [] {
      ValidStep(m, acts[0]);
      AgreesStep(m, acts[0], job, past);
      AgreesRun(Apply(m, acts[0]), acts[1..], job, PastNext(m, acts[0], job, past));
    }
  }

  /** A sampler runs exactly when there is a `memory.current` and no reset happened, which is when the
      job was not alone or the mark cannot be written. */
  lemma SamplesIff(usage: nat, acts: seq<Action>, job: Job)
    requires Run(Fresh(usage), acts)
    requires var m := Exec(Fresh(usage), acts); job in m.live || Opening(m, job)
    ensures
      var (m, past) := (Exec(Fresh(usage), acts), History(Fresh(usage), acts, job, Unopened));
      && past.Opened?
      && (Enabled(m, Sample(job)) <==>
            && past.kernel.where && past.kernel.hasCurrent
            && !(past.alone && past.kernel.hasPeak && past.kernel.resettable))
  {
    FreshValid(usage);
    AgreesRun(Fresh(usage), acts, job, Unopened);
  }

  /** Which reading a job gets, in every run. There is one exactly when there is a cgroup and a sample
      was taken or the mark can be read. It is `lower` exactly when a sample was taken, and then it is
      the largest of the samples, says how many there were and carries the mark beside it; otherwise
      it is the mark, and exact only if the mark was reset for this job. */
  lemma ReadingIs(usage: nat, acts: seq<Action>, job: Job, readable: bool)
    requires Run(Fresh(usage), acts) && Enabled(Exec(Fresh(usage), acts), Finish(job, readable))
    ensures
      var (m, past) := (Exec(Fresh(usage), acts), History(Fresh(usage), acts, job, Unopened));
      var done := Apply(m, Finish(job, readable)).done;
      && m.resetAt < |m.trace|
      && var mark := if readable then Some(Peak(m.trace[m.resetAt..])) else None;
      && past.Opened? && |done| == |m.done| + 1 && done[|m.done|].job == job
      && Reads(past, mark, done[|m.done|].reading)
  {
    FreshValid(usage);
    AgreesRun(Fresh(usage), acts, job, Unopened);
    ValidRun(Fresh(usage), acts);
  }

  predicate Reads(past: Past, mark: Option<nat>, reading: Option<Reading>)
    requires past.Opened?
  {
    && (reading.Some? <==> past.kernel.where && (past.read != [] || mark.Some?))
    && (reading.Some? ==>
          var r := reading.value;
          && (r.bound.Lower? <==> past.read != []) && r.samples == |past.read|
          && (r.bound.Lower? ==> Largest(past.read, r.peak) && r.lifetime == mark)
          && (!r.bound.Lower? ==> mark == Some(r.peak) && r.lifetime.None?)
          && (r.bound.Exact? <==> Resets(past) && !r.overlapped))
  }

  /** Every reading any run of the container produces is what its tag says. */
  lemma ReadingsSound(usage: nat, acts: seq<Action>)
    requires Run(Fresh(usage), acts)
    ensures
      var m := Exec(Fresh(usage), acts);
      forall f <- m.done :: f.reading.Some? ==>
        && f.watch.since <= f.closed < |m.trace|
        && Sound(Window(m, f), f.job, f.watch, f.reading.value)
  {
    FreshValid(usage);
    ValidRun(Fresh(usage), acts);
  }

  lemma FreshValid(usage: nat)
    ensures Valid(Fresh(usage))
  {
    assert Fresh(usage).trace[0..] == [Moment(usage, {})] && Peak([Moment(usage, {})]) == usage;
  }
}

/** cgroupmem.Watch as an object. The sampling thread's loop body is Sample; it runs until the
    runner reads the watch back. */
module MemoryWatch {
  import opened Basics
  import M = Memory

  class Watch {
    const where: bool
    const since: nat
    var overlapped: bool
    var reset: bool
    var sampling: bool
    var samples: nat
    var sampled: Option<nat>

    function Record(): M.Watch
      reads this
    {
      M.Watch(where, overlapped, reset, sampling, samples, sampled, since)
    }

    constructor (k: M.Kernel, exclusive: bool, since: nat)
      ensures Record() == M.OpenWatch(k, exclusive, since)
      ensures reset <==> k.where && k.hasPeak && exclusive && k.resettable
      ensures sampling <==> k.where && k.hasCurrent && !reset
    {
      where, overlapped, reset := k.where, !exclusive, false;
      sampling, samples, sampled, this.since := false, 0, None, since;
      new;
      if !k.where { return; }
      if k.hasPeak { reset := exclusive && k.resettable; }
      if !reset && k.hasCurrent { sampling := true; }
    }

    /** One turn of the sampling loop; None is a value that could not be read. */
    method Sample(value: Option<nat>)
      modifies this
      ensures Record() ==
              if value.Some? then M.TakeSample(old(Record()), value.value) else old(Record())
    {
      if value.Some? {
        samples := samples + 1;
        sampled := Some(if sampled.None? then value.value else Max(sampled.value, value.value));
      }
    }

    method ReadBack(lifetime: Option<nat>) returns (r: Option<M.Reading>)
      ensures r == M.ReadBack(Record(), lifetime)
      ensures r.Some? <==> where && (sampled.Some? || lifetime.Some?)
      ensures r.Some? && sampled.Some? ==> r.value == M.Reading(sampled.value, M.Lower, samples, overlapped, lifetime)
      ensures r.Some? && sampled.None? ==>
                && lifetime == Some(r.value.peak) && r.value.samples == 0
                && r.value.bound == if reset && !overlapped then M.Exact else M.Upper
    {
      if !where { return None; }
      if sampled.Some? {
        return Some(M.Reading(sampled.value, M.Lower, samples, overlapped, lifetime));
      }
      if lifetime.None? { return None; }
      var exact := reset && !overlapped;
      return Some(M.Reading(lifetime.value, if exact then M.Exact else M.Upper, 0, overlapped, None));
    }

    /** The job's reading, for a watch that is open on the container `m`: what its tag says it is. */
    method Finish(lifetime: Option<nat>, ghost m: M.Meter, ghost job: M.Job) returns (r: Option<M.Reading>)
      requires M.Valid(m) && M.Watching(m, job, Record()) && (lifetime.Some? ==> lifetime.value == m.mark)
      ensures r == M.ReadBack(Record(), lifetime)
      ensures r.Some? ==> M.Sound(m.trace[since..], job, Record(), r.value)
    {
      r := ReadBack(lifetime);
      M.ReadingSound(m, job, Record(), lifetime.Some?);
    }
  }
}
