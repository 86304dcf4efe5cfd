/** The standing jobs of a routine (src/rsched/jobs.py) and the ledger each run keeps of what it owes
    them (src/rsched/engine/jobops.py). */
module Jobs {
  import opened Basics

  // ---------------------------------------------------------------------- the store

  /** `state` is None when the record has no such key. A carry of "" is no carry; a wake date or a
      stamp that does not parse reads as absent. */
  datatype Job = Job(id: string, state: Option<string>, carry: string, wake: Option<int>,
                     quiet: int, last: Option<int>)

  /** One run's account: what it was due, what it checkpointed, whether it reached its close-out.
      `id` is "" before the first run. */
  datatype Ledger = Ledger(id: string, due: seq<string>, done: set<string>, ended: bool)

  datatype Doc = Doc(jobs: seq<Job>, run: Ledger)

  const DAY := 86400

  /** How the due computation reads a state: a missing key is active. */
  predicate IsActive(job: Job) {
    job.state.None? || job.state == Some("active")
  }

  /** How carrying and offering read it: the key must be there. */
  predicate RecordedActive(job: Job) {
    job.state == Some("active")
  }

  /** jobs.find: the first record with this id, or the length of the list. */
  function Find(jobs: seq<Job>, id: string): (k: nat)
    ensures k <= |jobs| && (k < |jobs| ==> jobs[k].id == id)
    ensures forall x :: 0 <= x < k ==> jobs[x].id != id
  {
    if jobs == [] || jobs[0].id == id then 0 else 1 + Find(jobs[1..], id)
  }

  predicate Has(jobs: seq<Job>, id: string) {
    Find(jobs, id) < |jobs|
  }

  lemma FindIs(jobs: seq<Job>, id: string, k: nat)
    requires k <= |jobs| && (k < |jobs| ==> jobs[k].id == id)
    requires forall x :: 0 <= x < k ==> jobs[x].id != id
    ensures Find(jobs, id) == k
  {
  }

  lemma FindSameIds(a: seq<Job>, b: seq<Job>, id: string)
    requires |a| == |b| && forall k :: 0 <= k < |a| ==> a[k].id == b[k].id
    ensures Find(a, id) == Find(b, id)
  {
    FindIs(b, id, Find(a, id));
  }

  // ---------------------------------------------------------------------- what a fire measured

  /** A run-gate check and the job it watches, if it names one. */
  datatype Check = Check(id: string, job: Option<string>)

  /** One answer of the gate; a row that is not a record is skipped. */
  datatype Row = Row(id: string, work: bool) | Junk

  /** gate.json: whether its decision was "run", and the answers it holds. */
  datatype Gate = Gate(ran: bool, answers: seq<Row>)

  datatype Fire = Fire(gate: Option<Gate>, checks: seq<Check>, today: int, now: int)

  datatype Reason =
    | Carried(text: string) | WakeCame(day: int) | NeverProcessed | Idle(days: int, limit: int)
    | EveryRun | NotAsked | Work(check: string) | NothingNew

  function Answers(fire: Fire): seq<Row> {
    if fire.gate.Some? then fire.gate.value.answers else []
  }

  predicate Measured(fire: Fire) {
    Answers(fire) != [] && fire.gate.value.ran
  }

  predicate Watches(checks: seq<Check>, job: string, cid: string) {
    Check(cid, Some(job)) in checks
  }

  /** The watched jobs, in the order their first checks come. */
  function Order(checks: seq<Check>): seq<string> {
    if checks == [] then []
    else
      var rest := Order(checks[..|checks| - 1]);
      var c := checks[|checks| - 1];
      if c.job.None? || c.job.value in rest then rest else rest + [c.job.value]
  }

  predicate Watched(checks: seq<Check>, job: string) {
    job in Order(checks)
  }

  /** Whose a check is: of the jobs that have a check of this id, the last one in the order. */
  function Owner(checks: seq<Check>, order: seq<string>, cid: string): Option<string> {
    if order == [] then None
    else
      var job := order[|order| - 1];
      if Watches(checks, job, cid) then Some(job) else Owner(checks, order[..|order| - 1], cid)
  }

  function OwnerOf(fire: Fire, cid: string): Option<string> {
    Owner(fire.checks, Order(fire.checks), cid)
  }

  lemma {:induction false} OrderWatches(checks: seq<Check>, job: string)
    ensures Watched(checks, job) <==> exists c :: c in checks && c.job == Some(job)
  {
    if checks != [] {
      var most, last := checks[..|checks| - 1], checks[|checks| - 1];
      OrderWatches(most, job);
      assert checks == most + [last];
      assert last in checks;
    }
  }

  /** The watched jobs come once each, by the place of their first checks. */
  lemma {:induction false} OrderFirstSeen(checks: seq<Check>) returns (at: seq<nat>)
    ensures |at| == |Order(checks)| && forall k :: 0 <= k < |at| ==>
              at[k] < |checks| && checks[at[k]].job == Some(Order(checks)[k])
              && forall i :: 0 <= i < at[k] ==> checks[i].job != Some(Order(checks)[k])
    ensures forall i, k :: 0 <= i < k < |at| ==> at[i] < at[k]
  {
    at := [];
    if checks != [] {
      var n := |checks| - 1;
      at := OrderFirstSeen(checks[..n]);
      var c := checks[n];
      if c.job.Some? && c.job.value !in Order(checks[..n]) {
        OrderWatches(checks[..n], c.job.value);
        forall i | 0 <= i < n ensures checks[i].job != c.job { assert checks[..n][i] in checks[..n]; }
        at := at + [n];
      }
    }
  }

  /** Of the jobs that have a check of this id, the last in the order has it. */
  lemma {:induction false} OwnerIsLast(checks: seq<Check>, order: seq<string>, cid: string, k: nat)
    requires k < |order| && Watches(checks, order[k], cid)
    requires forall i :: k < i < |order| ==> !Watches(checks, order[i], cid)
    ensures Owner(checks, order, cid) == Some(order[k])
  {
    if k < |order| - 1 { OwnerIsLast(checks, order[..|order| - 1], cid, k); }
  }

  /** A check that names a job always has an owner, and the owner has a check of that id. */
  lemma {:induction false} OwnerIff(checks: seq<Check>, order: seq<string>, cid: string)
    ensures Owner(checks, order, cid).Some? <==> exists job :: job in order && Watches(checks, job, cid)
    ensures
      var owner := Owner(checks, order, cid);
      owner.Some? ==> owner.value in order && Watches(checks, owner.value, cid)
  {
    if order != [] {
      var most, last := order[..|order| - 1], order[|order| - 1];
      OwnerIff(checks, most, cid);
      assert order == most + [last];
      assert last in order;
    }
  }

  // ---------------------------------------------------------------------- due

  function When(b: bool, r: Reason): seq<Reason> {
    if b then [r] else []
  }

  predicate WakeReached(job: Job, today: int) {
    job.wake.Some? && job.wake.value <= today
  }

  function QuietReason(job: Job, now: int): seq<Reason> {
    if job.quiet == 0 then []
    else if job.last.None? then [NeverProcessed]
    else
      var idle := (now - job.last.value) / DAY;
      When(idle >= job.quiet, Idle(idle, job.quiet))
  }

  function ClockReasons(job: Job, today: int, now: int, watched: bool): seq<Reason> {
    if !IsActive(job) then []
    else
      var out := When(job.carry != "", Carried(job.carry))
               + (if WakeReached(job, today) then [WakeCame(job.wake.value)] else [])
               + QuietReason(job, now);
      out + When(!watched && (job.wake.None? || WakeReached(job, today)) && out == [], EveryRun)
  }

  /** When a job is due by its own clock. An unwatched job without a wake date to come is due at
      every run: its quiet days alone never let it rest. */
  lemma ClockDueIff(job: Job, today: int, now: int, watched: bool)
    ensures ClockReasons(job, today, now, watched) != [] <==>
            && (job.state.None? || job.state == Some("active"))
            && (|| job.carry != ""
                || (job.wake.Some? && job.wake.value <= today)
                || (job.quiet != 0 && (job.last.None? || now >= job.last.value + job.quiet * 86400))
                || (!watched && job.wake.None?))
  {
    if job.quiet != 0 && job.last.Some? {
      DaysPassed(now - job.last.value, job.quiet);
    }
  }

  lemma DaysPassed(seconds: int, days: int)
    ensures seconds / DAY >= days <==> seconds >= days * DAY
  {
  }

  /** Which reasons the clock gives, in this order: what was carried, a wake date that came, quiet days
      that ran out (or a job never processed), and, failing all of them, that nothing watches it. */
  lemma ClockReasonsAre(job: Job, today: int, now: int, watched: bool)
    requires job.state.None? || job.state == Some("active")
    ensures
      var carried := if job.carry != "" then [Carried(job.carry)] else [];
      var woken := if job.wake.Some? && job.wake.value <= today then [WakeCame(job.wake.value)] else [];
      var waited :=
        if job.quiet == 0 then [] else if job.last.None? then [NeverProcessed]
        else if now < job.last.value + job.quiet * 86400 then []
        else [Idle((now - job.last.value) / 86400, job.quiet)];
      ClockReasons(job, today, now, watched) ==
        if carried + woken + waited == [] && !watched && job.wake.None? then [EveryRun]
        else carried + woken + waited
  {
    if job.quiet != 0 && job.last.Some? { DaysPassed(now - job.last.value, job.quiet); }
  }

  /** jobs.clock_due: every job due by its clock, with its first reason. */
  function ClockDue(jobs: seq<Job>, checks: seq<Check>, today: int, now: int): seq<(string, Reason)> {
    if jobs == [] then []
    else
      var job := jobs[|jobs| - 1];
      var reasons := ClockReasons(job, today, now, Watched(checks, job.id));
      ClockDue(jobs[..|jobs| - 1], checks, today, now) + (if reasons == [] then [] else [(job.id, reasons[0])])
  }

  /** The answers that found work for this job, as reasons. */
  function Owned(fire: Fire, rows: seq<Row>, id: string): seq<Reason> {
    if rows == [] then []
    else Owned(fire, rows[..|rows| - 1], id) + OwnedBy(fire, rows[|rows| - 1], id)
  }

  function OwnedBy(fire: Fire, row: Row, id: string): seq<Reason> {
    if row.Row? && row.work && OwnerOf(fire, row.id) == Some(id) then [Work(row.id)] else []
  }

  /** The answers that found work for no job; the gate's own script check is not one. */
  function Loose(fire: Fire, rows: seq<Row>): seq<Reason> {
    if rows == [] then []
    else Loose(fire, rows[..|rows| - 1]) + LooseOf(fire, rows[|rows| - 1])
  }

  function LooseOf(fire: Fire, row: Row): seq<Reason> {
    if row.Row? && row.work && OwnerOf(fire, row.id).None? && row.id != "script" then [Work(row.id)] else []
  }

  lemma RowNext(fire: Fire, rows: seq<Row>, i: nat)
    requires i < |rows|
    ensures Loose(fire, rows[..i + 1]) == Loose(fire, rows[..i]) + LooseOf(fire, rows[i])
    ensures forall id :: Owned(fire, rows[..i + 1], id) == Owned(fire, rows[..i], id) + OwnedBy(fire, rows[i], id)
  {
    assert rows[..i + 1][..i] == rows[..i];
  }

  function Why(job: Job, fire: Fire): seq<Reason> {
    ClockReasons(job, fire.today, fire.now, Watched(fire.checks, job.id))
    + When(!Measured(fire), NotAsked)
    + Owned(fire, Answers(fire), job.id) + Loose(fire, Answers(fire))
  }

  datatype Entry = Entry(id: string, why: seq<Reason>)

  function Due(jobs: seq<Job>, fire: Fire): seq<Entry> {
    if jobs == [] then []
    else Due(jobs[..|jobs| - 1], fire) + DueOf(jobs[|jobs| - 1], fire)
  }

  function DueOf(job: Job, fire: Fire): seq<Entry> {
    if IsActive(job) && Why(job, fire) != [] then [Entry(job.id, Why(job, fire))] else []
  }

  function Resting(jobs: seq<Job>, fire: Fire): seq<Entry> {
    if jobs == [] then []
    else Resting(jobs[..|jobs| - 1], fire) + RestOf(jobs[|jobs| - 1], fire)
  }

  function RestOf(job: Job, fire: Fire): seq<Entry> {
    if IsActive(job) && Why(job, fire) == [] then [Entry(job.id, [NothingNew])] else []
  }

  lemma JobNext(jobs: seq<Job>, i: nat, fire: Fire)
    requires i < |jobs|
    ensures Due(jobs[..i + 1], fire) == Due(jobs[..i], fire) + DueOf(jobs[i], fire)
    ensures Resting(jobs[..i + 1], fire) == Resting(jobs[..i], fire) + RestOf(jobs[i], fire)
  {
    assert jobs[..i + 1][..i] == jobs[..i];
  }

  /** checks_by_job: the checks' ids by job, and the jobs in the order they first come. */
  method ChecksByJob(checks: seq<Check>) returns (out: map<string, seq<string>>, order: seq<string>)
    ensures order == Order(checks)
    ensures forall job :: job in out <==> job in order
    ensures forall job, cid :: job in out ==> (cid in out[job] <==> Watches(checks, job, cid))
  {
    out, order := map[], [];
    var i := 0;
    while i < |checks|
      invariant i <= |checks| && order == Order(checks[..i])
      invariant forall job :: job in out <==> job in order
      invariant forall job, cid :: job in out ==> (cid in out[job] <==> Watches(checks[..i], job, cid))
    {
      var c := checks[i];
      assert checks[..i + 1] == checks[..i] + [c] && checks[..i + 1][..i] == checks[..i];
      if c.job.Some? {
        OrderWatches(checks[..i], c.job.value);
        if c.job.value !in out {
          order := order + [c.job.value];
          out := out[c.job.value := [c.id]];
        } else {
          out := out[c.job.value := out[c.job.value] + [c.id]];
        }
      }
      i := i + 1;
    }
    assert checks[..|checks|] == checks;
  }

  /** The comprehension over `watched`: a later job of the order takes a check id over. */
  method Owners(checks: seq<Check>, watched: map<string, seq<string>>, order: seq<string>)
    returns (owner: map<string, string>)
    requires forall job :: job in watched <==> job in order
    requires forall job, cid :: job in watched ==> (cid in watched[job] <==> Watches(checks, job, cid))
    ensures forall cid :: (if cid in owner then Some(owner[cid]) else None) == Owner(checks, order, cid)
  {
    owner := map[];
    var i := 0;
    while i < |order|
      invariant i <= |order|
      invariant forall cid :: (if cid in owner then Some(owner[cid]) else None) == Owner(checks, order[..i], cid)
    {
      var job := order[i];
      assert order[..i + 1][..i] == order[..i];
      var before, k := owner, 0;
      while k < |watched[job]|
        invariant k <= |watched[job]|
        invariant forall cid :: (cid in owner <==> cid in before || cid in watched[job][..k])
        invariant forall cid :: cid in owner ==>
                    owner[cid] == if cid in watched[job][..k] then job else if cid in before then before[cid] else job
      {
        owner := owner[watched[job][k] := job];
        assert watched[job][..k + 1] == watched[job][..k] + [watched[job][k]];
        k := k + 1;
      }
      assert watched[job][..k] == watched[job];
      i := i + 1;
    }
    assert order[..|order|] == order;
  }

  method SortRow(fire: Fire, row: Row, owner: map<string, string>, work: map<string, seq<Reason>>,
                 loose: seq<Reason>) returns (work': map<string, seq<Reason>>, loose': seq<Reason>)
    requires forall cid :: (if cid in owner then Some(owner[cid]) else None) == OwnerOf(fire, cid)
    ensures loose' == loose + LooseOf(fire, row)
    ensures forall id :: (if id in work' then work'[id] else [])
                      == (if id in work then work[id] else []) + OwnedBy(fire, row, id)
  {
    work', loose' := work, loose;
    if row.Row? && row.work {
      assert OwnerOf(fire, row.id) == if row.id in owner then Some(owner[row.id]) else None;
      if row.id in owner {
        var job := owner[row.id];
        work' := work[job := (if job in work then work[job] else []) + [Work(row.id)]];
      } else if row.id != "script" {
        loose' := loose + [Work(row.id)];
      }
    }
  }

  /** The gate's working answers, by the job each belongs to, and those that belong to none. */
  method Sort(fire: Fire, owner: map<string, string>) returns (work: map<string, seq<Reason>>, loose: seq<Reason>)
    requires forall cid :: (if cid in owner then Some(owner[cid]) else None) == OwnerOf(fire, cid)
    ensures loose == Loose(fire, Answers(fire))
    ensures forall id :: (if id in work then work[id] else []) == Owned(fire, Answers(fire), id)
  {
    var answers := Answers(fire);
    loose, work := [], map[];
    var i := 0;
    while i < |answers|
      invariant i <= |answers| && loose == Loose(fire, answers[..i])
      invariant forall id :: (if id in work then work[id] else []) == Owned(fire, answers[..i], id)
    {
      var row := answers[i];
      RowNext(fire, answers, i);
      work, loose := SortRow(fire, row, owner, work, loose);
      i := i + 1;
    }
    assert answers[..|answers|] == answers;
  }

  method Reasons(job: Job, fire: Fire, watched: map<string, seq<string>>, work: map<string, seq<Reason>>,
                 loose: seq<Reason>) returns (why: seq<Reason>)
    requires job.id in watched <==> Watched(fire.checks, job.id)
    requires (if job.id in work then work[job.id] else []) == Owned(fire, Answers(fire), job.id)
    requires loose == Loose(fire, Answers(fire))
    ensures why == Why(job, fire)
  {
    why := ClockReasons(job, fire.today, fire.now, job.id in watched);
    if !Measured(fire) {
      why := why + [NotAsked];
    } else {
      assert why + [] == why;
    }
    why := why + (if job.id in work then work[job.id] else []) + loose;
  }

  method Place(job: Job, fire: Fire, why: seq<Reason>, due: seq<Entry>, resting: seq<Entry>)
    returns (due': seq<Entry>, resting': seq<Entry>)
    requires IsActive(job) && why == Why(job, fire)
    ensures due' == due + DueOf(job, fire) && resting' == resting + RestOf(job, fire)
  {
    due', resting' := due, resting;
    if why != [] {
      due' := due + [Entry(job.id, why)];
    } else {
      resting' := resting + [Entry(job.id, [NothingNew])];
    }
  }

  method DueForRun(jobs: seq<Job>, fire: Fire) returns (due: seq<Entry>, resting: seq<Entry>)
    ensures due == Due(jobs, fire) && resting == Resting(jobs, fire)
  {
    var watched, order := ChecksByJob(fire.checks);
    var owner := Owners(fire.checks, watched, order);
    var work, loose := Sort(fire, owner);
    due, resting := Deal(jobs, fire, watched, work, loose);
  }

  /** The loop over the jobs, given what the gate's answers say. */
  method Deal(jobs: seq<Job>, fire: Fire, watched: map<string, seq<string>>, work: map<string, seq<Reason>>,
              loose: seq<Reason>) returns (due: seq<Entry>, resting: seq<Entry>)
    requires forall id :: id in watched <==> Watched(fire.checks, id)
    requires forall id :: (if id in work then work[id] else []) == Owned(fire, Answers(fire), id)
    requires loose == Loose(fire, Answers(fire))
    ensures due == Due(jobs, fire) && resting == Resting(jobs, fire)
  {
    due, resting := [], [];
    var i := 0;
    while i < |jobs|
      invariant i <= |jobs| && due == Due(jobs[..i], fire) && resting == Resting(jobs[..i], fire)
    {
      var job := jobs[i];
      JobNext(jobs, i, fire);
      if IsActive(job) {
        var why := Reasons(job, fire, watched, work, loose);
        due, resting := Place(job, fire, why, due, resting);
      }
      i := i + 1;
    }
    assert jobs[..|jobs|] == jobs;
  }

  // what the due list means

  /** A working answer of the gate that concerns this job: one of its own, or one of nobody's. */
  ghost predicate Concerns(fire: Fire, row: Row, id: string) {
    row.Row? && row.work
    && (OwnerOf(fire, row.id) == Some(id) || (OwnerOf(fire, row.id).None? && row.id != "script"))
  }

  lemma {:induction false} WorkIff(fire: Fire, rows: seq<Row>, id: string)
    ensures Owned(fire, rows, id) + Loose(fire, rows) != [] <==> exists row :: row in rows && Concerns(fire, row, id)
  {
    if rows != [] {
      var most, last := rows[..|rows| - 1], rows[|rows| - 1];
      WorkIff(fire, most, id);
      assert rows == most + [last];
      assert last in rows;
    }
  }

  /** Exactly when an active job is due: the clock says so, nothing was measured, or the gate found
      work that is its own or nobody's. */
  lemma WhyIff(job: Job, fire: Fire)
    ensures Why(job, fire) != [] <==>
            || ClockReasons(job, fire.today, fire.now, Watched(fire.checks, job.id)) != []
            || !(fire.gate.Some? && fire.gate.value.ran && fire.gate.value.answers != [])
            || exists row :: row in Answers(fire) && Concerns(fire, row, job.id)
  {
    WorkIff(fire, Answers(fire), job.id);
  }

  /** And what they are: the clock's, that the gate was not asked, and each check that found such work. */
  lemma WhyHolds(job: Job, fire: Fire, r: Reason)
    ensures r in Why(job, fire) <==>
            || r in ClockReasons(job, fire.today, fire.now, exists c <- fire.checks :: c.job == Some(job.id))
            || (r == NotAsked && !(fire.gate.Some? && fire.gate.value.ran && fire.gate.value.answers != []))
            || exists row :: row in Answers(fire) && Concerns(fire, row, job.id) && r == Work(row.id)
  {
    OrderWatches(fire.checks, job.id);
    WorkHolds(fire, Answers(fire), job.id, r);
  }

  lemma {:induction false} WorkHolds(fire: Fire, rows: seq<Row>, id: string, r: Reason)
    ensures r in Owned(fire, rows, id) || r in Loose(fire, rows) <==>
            exists row :: row in rows && Concerns(fire, row, id) && r == Work(row.id)
  {
    if rows != [] {
      var most, last := rows[..|rows| - 1], rows[|rows| - 1];
      WorkHolds(fire, most, id, r);
      assert rows == most + [last];
      assert last in rows;
    }
  }

  function ActiveIds(jobs: seq<Job>): seq<string> {
    if jobs == [] then []
    else ActiveIds(jobs[..|jobs| - 1]) + (if IsActive(jobs[|jobs| - 1]) then [jobs[|jobs| - 1].id] else [])
  }

  function Ids(entries: seq<Entry>): seq<string> {
    seq(|entries|, k requires 0 <= k < |entries| => entries[k].id)
  }

  /** `s` is a and b dealt together, each in its own order. */
  predicate Merges(s: seq<string>, a: seq<string>, b: seq<string>) {
    if s == [] then a == [] && b == []
    else
      var x := s[|s| - 1];
      || (a != [] && a[|a| - 1] == x && Merges(s[..|s| - 1], a[..|a| - 1], b))
      || (b != [] && b[|b| - 1] == x && Merges(s[..|s| - 1], a, b[..|b| - 1]))
  }

  lemma IdsOf(a: seq<Entry>, e: Entry)
    ensures Ids(a + [e]) == Ids(a) + [e.id]
  {
  }

  /** Due and resting together are the active jobs, each once and in job order. */
  lemma {:induction false} DuePartitions(jobs: seq<Job>, fire: Fire)
    ensures Merges(ActiveIds(jobs), Ids(Due(jobs, fire)), Ids(Resting(jobs, fire)))
  {
    if jobs != [] {
      var most, job := jobs[..|jobs| - 1], jobs[|jobs| - 1];
      DuePartitions(most, fire);
      var s, d, r := ActiveIds(most), Due(most, fire), Resting(most, fire);
      if !IsActive(job) {
        assert d + [] == d && r + [] == r && s + [] == s;
      } else if Why(job, fire) != [] {
        IdsOf(d, Entry(job.id, Why(job, fire)));
        MergesNext(s, Ids(d), Ids(r), job.id);
        assert r + [] == r;
      } else {
        IdsOf(r, Entry(job.id, [NothingNew]));
        MergesNext(s, Ids(d), Ids(r), job.id);
        assert d + [] == d;
      }
    }
  }

  lemma MergesNext(s: seq<string>, a: seq<string>, b: seq<string>, x: string)
    requires Merges(s, a, b)
    ensures Merges(s + [x], a + [x], b) && Merges(s + [x], a, b + [x])
  {
    assert (s + [x])[..|s|] == s && (a + [x])[..|a|] == a && (b + [x])[..|b|] == b;
  }

  /** A gate that did not answer makes every active job due. */
  lemma {:induction false} UnmeasuredIsAllDue(jobs: seq<Job>, fire: Fire)
    requires !Measured(fire)
    ensures Ids(Due(jobs, fire)) == ActiveIds(jobs) && Resting(jobs, fire) == []
  {
    if jobs != [] {
      var most := jobs[..|jobs| - 1];
      UnmeasuredIsAllDue(most, fire);
      assert Why(jobs[|jobs| - 1], fire) != [];
      assert Ids(Due(jobs, fire)) == ActiveIds(jobs);
    }
  }

  lemma IdsConcat(a: seq<Entry>, b: seq<Entry>, id: string)
    ensures id in Ids(a + b) <==> id in Ids(a) || id in Ids(b)
  {
    assert Ids(a + b) == Ids(a) + Ids(b);
  }

  lemma DueOfHas(job: Job, fire: Fire, id: string)
    ensures id in Ids(DueOf(job, fire)) <==> DueOf(job, fire) != [] && job.id == id
  {
    if DueOf(job, fire) != [] {
      assert Ids(DueOf(job, fire)) == [job.id];
    }
  }

  ghost predicate SomeDue(jobs: seq<Job>, fire: Fire, id: string) {
    exists job :: job in jobs && job.id == id && DueOf(job, fire) != []
  }

  lemma SomeDueNext(jobs: seq<Job>, fire: Fire, id: string)
    requires jobs != []
    ensures
      var job := jobs[|jobs| - 1];
      SomeDue(jobs, fire, id) <==> SomeDue(jobs[..|jobs| - 1], fire, id) || id in Ids(DueOf(job, fire))
  {
    DueOfHas(jobs[|jobs| - 1], fire, id);
    assert jobs == jobs[..|jobs| - 1] + [jobs[|jobs| - 1]];
  }

  lemma DueIdsNext(jobs: seq<Job>, fire: Fire, id: string)
    requires jobs != []
    ensures
      var job := jobs[|jobs| - 1];
      id in Ids(Due(jobs, fire)) <==> id in Ids(Due(jobs[..|jobs| - 1], fire)) || id in Ids(DueOf(job, fire))
  {
    IdsConcat(Due(jobs[..|jobs| - 1], fire), DueOf(jobs[|jobs| - 1], fire), id);
  }

  /** The due list holds exactly the ids of the active jobs that have reasons. */
  lemma {:induction false} DueIff(jobs: seq<Job>, fire: Fire, id: string)
    ensures id in Ids(Due(jobs, fire)) <==> SomeDue(jobs, fire, id)
  {
    if jobs != [] {
      DueIff(jobs[..|jobs| - 1], fire, id);
      SomeDueNext(jobs, fire, id);
      DueIdsNext(jobs, fire, id);
    }
  }

  predicate Lists(due: seq<(string, Reason)>, id: string) {
    exists e :: e in due && e.0 == id
  }

  lemma {:induction false} ClockDueHas(jobs: seq<Job>, checks: seq<Check>, today: int, now: int, k: nat)
    requires k < |jobs| && ClockReasons(jobs[k], today, now, Watched(checks, jobs[k].id)) != []
    ensures Lists(ClockDue(jobs, checks, today, now), jobs[k].id)
  {
    var most, due := jobs[..|jobs| - 1], ClockDue(jobs, checks, today, now);
    if k == |jobs| - 1 {
      assert due[|due| - 1].0 == jobs[k].id;
    } else {
      assert most[k] == jobs[k];
      ClockDueHas(most, checks, today, now, k);
      var e :| e in ClockDue(most, checks, today, now) && e.0 == jobs[k].id;
      assert e in due;
    }
  }

  // ---------------------------------------------------------------------- what is done to the store

  datatype WakeArg = Keep | Clear | Until(day: Option<int>)

  /** record_checkpoint: what a job's record becomes. `text` is what the carry would say. */
  function Checkpointed(job: Job, deferred: bool, text: string, wake: WakeArg, today: int, now: int): Job {
    job.(last := Some(now),
         carry := if deferred then "deferred by " + text else "",
         wake := match wake
                 case Keep => if WakeReached(job, today) then None else job.wake
                 case Clear => None
                 case Until(day) => day)
  }

  /** Whether a run's end owes this item of its due list a carry. */
  predicate Unprocessed(jobs: seq<Job>, done: set<string>, id: string) {
    var k := Find(jobs, id);
    k < |jobs| && id !in done && RecordedActive(jobs[k])
  }

  /** Every unprocessed job in `due`, in order, is carried. */
  function Carry(jobs: seq<Job>, due: seq<string>, done: set<string>, text: string): (r: seq<Job>)
    ensures |r| == |jobs|
  {
    if due == [] then jobs
    else
      var before := Carry(jobs, due[..|due| - 1], done, text);
      var id := due[|due| - 1];
      if Unprocessed(before, done, id) then before[Find(before, id) := before[Find(before, id)].(carry := text)]
      else before
  }

  function CarriedIds(jobs: seq<Job>, due: seq<string>, done: set<string>): seq<string> {
    if due == [] then []
    else
      CarriedIds(jobs, due[..|due| - 1], done)
      + (if Unprocessed(jobs, done, due[|due| - 1]) then [due[|due| - 1]] else [])
  }

  /** Carrying sets the carry of exactly the first records of the unprocessed ids, and nothing else. */
  lemma {:induction false} CarryExact(jobs: seq<Job>, due: seq<string>, done: set<string>, text: string)
    ensures
      var r := Carry(jobs, due, done, text);
      forall k :: 0 <= k < |jobs| ==>
        r[k] == if jobs[k].id in due && Find(jobs, jobs[k].id) == k && Unprocessed(jobs, done, jobs[k].id)
                then jobs[k].(carry := text) else jobs[k]
    ensures forall id :: Find(Carry(jobs, due, done, text), id) == Find(jobs, id)
    ensures forall id :: Unprocessed(Carry(jobs, due, done, text), done, id) == Unprocessed(jobs, done, id)
  {
    if due != [] {
      var most, id := due[..|due| - 1], due[|due| - 1];
      CarryExact(jobs, most, done, text);
      assert due == most + [id];
      var before, r := Carry(jobs, most, done, text), Carry(jobs, due, done, text);
      assert Unprocessed(before, done, id) == Unprocessed(jobs, done, id);
      forall x ensures Find(r, x) == Find(jobs, x) {
        FindSameIds(before, r, x);
      }
    }
  }

  datatype Act =
    | Boot(run: string, fire: Fire)
    | Open(id: string)
    | Checkpoint(id: string, deferred: bool, summary: string, wake: WakeArg, today: int, now: int)
    | Close(run: string, why: string)
    | Create(job: Job)
    | Update(id: string, state: Option<string>, quiet: Option<int>, wake: WakeArg)
    | Delete(id: string)

  function Orphaned(doc: Doc): seq<Job> {
    if doc.run.id == "" || doc.run.ended then doc.jobs
    else
      Carry(doc.jobs, doc.run.due, doc.run.done,
            "run " + doc.run.id + " stopped before its close-out without checkpointing it")
  }

  predicate Settles(state: Option<string>) {
    state == Some("paused") || state == Some("done")
  }

  /** The done set with `id` in it, when this run was due it. */
  function Decided(run: Ledger, id: string): Ledger {
    if id in run.due then run.(done := run.done + {id}) else run
  }

  function RemoveId(jobs: seq<Job>, id: string): seq<Job> {
    if jobs == [] then []
    else
      var most := RemoveId(jobs[..|jobs| - 1], id);
      if jobs[|jobs| - 1].id == id then most else most + [jobs[|jobs| - 1]]
  }

  function Updated(job: Job, a: Act): Job
    requires a.Update?
  {
    job.(state := if a.state.Some? && a.state.value != "" then a.state else job.state,
         quiet := if a.quiet.Some? then a.quiet.value else job.quiet,
         wake := match a.wake case Keep => job.wake case Clear => None case Until(day) => day,
         carry := if Settles(a.state) then "" else job.carry)
  }

  /** One edit of the store under its lock. An act that is refused changes nothing. */
  function Do(doc: Doc, a: Act): Doc {
    match a
    case Boot(run, fire) =>
      if doc.run.id == run then doc
      else
        var jobs := Orphaned(doc);
        Doc(jobs, Ledger(run, Ids(Due(jobs, fire)), {}, false))
    case Open(id) =>
      var k := Find(doc.jobs, id);
      if k == |doc.jobs| || !IsActive(doc.jobs[k]) || id in doc.run.due then doc
      else doc.(run := doc.run.(due := doc.run.due + [id]))
    case Checkpoint(id, deferred, summary, wake, today, now) =>
      var k := Find(doc.jobs, id);
      if k == |doc.jobs| then doc
      else
        var text := doc.run.id + ": " + summary[..Min(300, |summary|)];
        Doc(doc.jobs[k := Checkpointed(doc.jobs[k], deferred, text, wake, today, now)],
            doc.run.(done := doc.run.done + {id}))
    case Close(run, why) =>
      if doc.run.id != run || run == "" then doc
      else
        Doc(Carry(doc.jobs, doc.run.due, doc.run.done, "run " + run + " " + why + " before checkpointing it"),
            doc.run.(ended := true))
    case Create(job) =>
      if Has(doc.jobs, job.id) then doc else doc.(jobs := doc.jobs + [job])
    case Update(id, state, _, _) =>
      var k := Find(doc.jobs, id);
      if k == |doc.jobs| then doc
      else Doc(doc.jobs[k := Updated(doc.jobs[k], a)], if Settles(state) then Decided(doc.run, id) else doc.run)
    case Delete(id) =>
      if !Has(doc.jobs, id) then doc else Doc(RemoveId(doc.jobs, id), Decided(doc.run, id))
  }

  function Run(doc: Doc, acts: seq<Act>): Doc
    decreases acts
  {
    if acts == [] then doc else Run(Do(doc, acts[0]), acts[1..])
  }

  // ---------------------------------------------------------------------- no owed job is lost

  /** The job is owed to the next run: it is recorded active and either carried already, or due in a
      run that is still to be closed out and has not settled it. */
  predicate Pending(doc: Doc, id: string) {
    var k := Find(doc.jobs, id);
    && k < |doc.jobs| && RecordedActive(doc.jobs[k])
    && (doc.jobs[k].carry != ""
        || (doc.run.id != "" && !doc.run.ended && id in doc.run.due && id !in doc.run.done))
  }

  /** What may end the debt: a checkpoint that is not deferred, a state other than active, removal. */
  predicate Settling(a: Act, id: string) {
    match a
    case Checkpoint(x, deferred, _, _, _, _) => x == id && !deferred
    case Update(x, state, _, _) => x == id && state.Some? && state.value != "" && state.value != "active"
    case Delete(x) => x == id
    case _ => false
  }

  lemma CarryKeepsPending(doc: Doc, text: string, run: Ledger, id: string)
    requires Pending(doc, id) && text != ""
    ensures
      var jobs := Carry(doc.jobs, doc.run.due, doc.run.done, text);
      Find(jobs, id) < |jobs| && RecordedActive(jobs[Find(jobs, id)]) && jobs[Find(jobs, id)].carry != ""
  {
    CarryExact(doc.jobs, doc.run.due, doc.run.done, text);
  }

  lemma OrphanedKeepsPending(doc: Doc, id: string)
    requires Pending(doc, id)
    ensures
      var jobs := Orphaned(doc);
      Find(jobs, id) < |jobs| && RecordedActive(jobs[Find(jobs, id)]) && jobs[Find(jobs, id)].carry != ""
  {
    if doc.run.id != "" && !doc.run.ended {
      CarryKeepsPending(doc, "run " + doc.run.id + " stopped before its close-out without checkpointing it",
                        doc.run, id);
    }
  }

  lemma CarriedIsDue(jobs: seq<Job>, fire: Fire, id: string)
    requires Find(jobs, id) < |jobs|
    requires IsActive(jobs[Find(jobs, id)]) && jobs[Find(jobs, id)].carry != ""
    ensures id in Ids(Due(jobs, fire))
  {
    var job := jobs[Find(jobs, id)];
    ClockDueIff(job, fire.today, fire.now, Watched(fire.checks, job.id));
    WhyIff(job, fire);
    DueIff(jobs, fire, id);
  }

  /** Whatever its gate answered, a new run is due every pending job. */
  lemma PendingIsDue(doc: Doc, run: string, fire: Fire, id: string)
    requires Pending(doc, id) && doc.run.id != run
    ensures id in Do(doc, Boot(run, fire)).run.due
  {
    OrphanedKeepsPending(doc, id);
    CarriedIsDue(Orphaned(doc), fire, id);
  }

  /** Once the run has ended, the admission gate sees it by the clock alone. */
  lemma PendingByClock(doc: Doc, checks: seq<Check>, today: int, now: int, id: string)
    requires Pending(doc, id) && (doc.run.ended || doc.run.id == "")
    ensures Lists(ClockDue(doc.jobs, checks, today, now), id)
  {
    var k := Find(doc.jobs, id);
    ClockDueIff(doc.jobs[k], today, now, Watched(checks, id));
    ClockDueHas(doc.jobs, checks, today, now, k);
  }

  lemma {:induction false} RemoveFinds(jobs: seq<Job>, gone: string, id: string)
    requires gone != id && Has(jobs, id)
    ensures
      var r := RemoveId(jobs, gone);
      Has(r, id) && r[Find(r, id)] == jobs[Find(jobs, id)]
  {
    var most, last := jobs[..|jobs| - 1], jobs[|jobs| - 1];
    var k, r := Find(jobs, id), RemoveId(most, gone);
    assert jobs == most + [last];
    if k < |most| {
      FindIs(most, id, k);
      RemoveFinds(most, gone, id);
      FindIs(RemoveId(jobs, gone), id, Find(r, id));
    } else {
      RemoveLacks(most, gone, id);
      FindIs(r + [last], id, |r|);
    }
  }

  lemma {:induction false} RemoveLacks(jobs: seq<Job>, gone: string, id: string)
    requires forall x :: 0 <= x < |jobs| ==> jobs[x].id != id
    ensures forall x :: 0 <= x < |RemoveId(jobs, gone)| ==> RemoveId(jobs, gone)[x].id != id
  {
    if jobs != [] { RemoveLacks(jobs[..|jobs| - 1], gone, id); }
  }

  lemma EditKeeps(jobs: seq<Job>, k: nat, job: Job, id: string)
    requires k < |jobs| && job.id == jobs[k].id
    ensures Find(jobs[k := job], id) == Find(jobs, id)
  {
    FindSameIds(jobs, jobs[k := job], id);
  }

  lemma CheckpointKeepsPending(doc: Doc, a: Act, id: string)
    requires Pending(doc, id) && a.Checkpoint? && !Settling(a, id)
    ensures Pending(Do(doc, a), id)
  {
    var n := Find(doc.jobs, a.id);
    if n < |doc.jobs| {
      EditKeeps(doc.jobs, n, Do(doc, a).jobs[n], id);
    }
  }

  lemma UpdateKeepsPending(doc: Doc, a: Act, id: string)
    requires Pending(doc, id) && a.Update? && !Settling(a, id)
    ensures Pending(Do(doc, a), id)
  {
    var n := Find(doc.jobs, a.id);
    if n < |doc.jobs| {
      EditKeeps(doc.jobs, n, Updated(doc.jobs[n], a), id);
    }
  }

  lemma StepKeepsPending(doc: Doc, a: Act, id: string)
    requires Pending(doc, id) && !Settling(a, id)
    ensures Pending(Do(doc, a), id)
  {
    match a {
      case Boot(_, _) => OrphanedKeepsPending(doc, id);
      case Open(_) =>
      case Checkpoint(_, _, _, _, _, _) => CheckpointKeepsPending(doc, a, id);
      case Close(run, why) =>
        CarryKeepsPending(doc, "run " + run + " " + why + " before checkpointing it", doc.run, id);
      case Create(job) => FindIs(doc.jobs + [job], id, Find(doc.jobs, id));
      case Update(_, _, _, _) => UpdateKeepsPending(doc, a, id);
      case Delete(x) => RemoveFinds(doc.jobs, x, id);
    }
  }

  lemma {:induction false} RunKeepsPending(doc: Doc, acts: seq<Act>, id: string)
    requires Pending(doc, id) && forall a :: a in acts ==> !Settling(a, id)
    ensures Pending(Run(doc, acts), id)
    decreases acts
  {
    if acts != [] {
      StepKeepsPending(doc, acts[0], id);
      RunKeepsPending(Do(doc, acts[0]), acts[1..], id);
    }
  }

  /** No owed job is lost: over any run of boots, opens, checkpoints, close-outs, edits and kills that
      does not settle it, a pending job stays pending; every later run is due it whatever its gate
      answers, and once a run has ended the clock alone makes it due. */
  lemma NoOwedJobLost(doc: Doc, acts: seq<Act>, id: string)
    requires Pending(doc, id) && forall a :: a in acts ==> !Settling(a, id)
    ensures
      var end := Run(doc, acts);
      && Pending(end, id)
      && (forall run, fire :: run != end.run.id ==> id in Do(end, Boot(run, fire)).run.due)
      && (end.run.ended ==>
            forall checks, today, now :: Lists(ClockDue(end.jobs, checks, today, now), id))
  {
    var end := Run(doc, acts);
    RunKeepsPending(doc, acts, id);
    forall run, fire | run != end.run.id ensures id in Do(end, Boot(run, fire)).run.due {
      PendingIsDue(end, run, fire, id);
    }
    if end.run.ended {
      forall checks, today, now ensures Lists(ClockDue(end.jobs, checks, today, now), id) {
        PendingByClock(end, checks, today, now, id);
      }
    }
  }

  /** A checkpoint leaves the job pending exactly when it is deferred and recorded active. */
  lemma CheckpointIff(doc: Doc, a: Act)
    requires a.Checkpoint? && Has(doc.jobs, a.id)
    ensures Pending(Do(doc, a), a.id) <==> a.deferred && RecordedActive(doc.jobs[Find(doc.jobs, a.id)])
  {
    var n := Find(doc.jobs, a.id);
    EditKeeps(doc.jobs, n, Do(doc, a).jobs[n], a.id);
  }

  /** What a checkpoint records, of the first record with that id and of no other. */
  lemma CheckpointRecords(doc: Doc, a: Act)
    requires a.Checkpoint? && Has(doc.jobs, a.id)
    ensures
      var (k, t) := (Find(doc.jobs, a.id), Do(doc, a));
      && |t.jobs| == |doc.jobs| && (forall i :: 0 <= i < |t.jobs| && i != k ==> t.jobs[i] == doc.jobs[i])
      && t.run == doc.run.(done := doc.run.done + {a.id})
      && var (was, got) := (doc.jobs[k], t.jobs[k]);
      && got.id == was.id && got.state == was.state && got.quiet == was.quiet && got.last == Some(a.now)
      && (!a.deferred ==> got.carry == "")
      && (a.deferred ==> got.carry == "deferred by " + (doc.run.id + ": "
                                     + if |a.summary| <= 300 then a.summary else a.summary[..300]))
      && (a.wake.Until? ==> got.wake == a.wake.day) && (a.wake.Clear? ==> got.wake == None)
      && (a.wake.Keep? ==> got.wake == if was.wake.Some? && was.wake.value <= a.today then None else was.wake)
  {
    assert |a.summary| <= 300 ==> a.summary[..|a.summary|] == a.summary;
  }

  /** When a job that was checkpointed and not deferred is due again by its clock: its wake date has come,
      unless it had come already; its quiet days have passed since this checkpoint; or nothing watches
      it and no wake date is left to wait for. */
  lemma AfterCheckpointIff(doc: Doc, a: Act, today: int, now: int, watched: bool)
    requires a.Checkpoint? && Has(doc.jobs, a.id) && !a.deferred
    ensures
      var k := Find(doc.jobs, a.id);
      var was := doc.jobs[k];
      var wake := match a.wake case Until(day) => day case Clear => None
                  case Keep => if was.wake.Some? && was.wake.value <= a.today then None else was.wake;
      ClockReasons(Do(doc, a).jobs[k], today, now, watched) != [] <==>
        && (was.state.None? || was.state == Some("active"))
        && (|| (wake.Some? && wake.value <= today) || (was.quiet != 0 && now >= a.now + was.quiet * 86400)
            || (!watched && wake.None?))
  {
    CheckpointRecords(doc, a);
    ClockDueIff(Do(doc, a).jobs[Find(doc.jobs, a.id)], today, now, watched);
  }

  /** What an update changes of the first record with that id: what it names, and a decision to pause or
      finish the job drops its carry and settles it for this run. */
  lemma UpdateRecords(doc: Doc, a: Act)
    requires a.Update? && Has(doc.jobs, a.id)
    ensures
      var (k, t) := (Find(doc.jobs, a.id), Do(doc, a));
      var decides := a.state == Some("paused") || a.state == Some("done");
      && |t.jobs| == |doc.jobs| && (forall i :: 0 <= i < |t.jobs| && i != k ==> t.jobs[i] == doc.jobs[i])
      && t.run == (if decides && a.id in doc.run.due then doc.run.(done := doc.run.done + {a.id}) else doc.run)
      && var (was, got) := (doc.jobs[k], t.jobs[k]);
      && got.id == was.id && got.last == was.last && got.carry == (if decides then "" else was.carry)
      && got.state == (if a.state.None? || a.state == Some("") then was.state else a.state)
      && (a.quiet.None? ==> got.quiet == was.quiet) && (a.quiet.Some? ==> got.quiet == a.quiet.value)
      && (a.wake.Keep? ==> got.wake == was.wake) && (a.wake.Clear? ==> got.wake == None)
      && (a.wake.Until? ==> got.wake == a.wake.day)
  {
  }

  /** Creating refuses an id that is taken, deleting takes every record of its id and settles it for this
      run, opening an active job makes it due. */
  lemma EditsAre(doc: Doc, job: Job, id: string)
    ensures Do(doc, Create(job)) == if exists k :: 0 <= k < |doc.jobs| && doc.jobs[k].id == job.id then doc
                                    else doc.(jobs := doc.jobs + [job])
    ensures forall x :: x in Do(doc, Delete(id)).jobs <==> x in doc.jobs && x.id != id
    ensures Has(doc.jobs, id) && id in doc.run.due ==> id in Do(doc, Delete(id)).run.done
    ensures var t := Do(doc, Open(id));
            && t.jobs == doc.jobs
            && (id !in doc.run.due && Has(doc.jobs, id) && IsActive(doc.jobs[Find(doc.jobs, id)]) ==>
                  t.run == doc.run.(due := doc.run.due + [id]))
  {
    RemoveIdIs(doc.jobs, id);
    if !Has(doc.jobs, id) {
      forall x ensures x in doc.jobs ==> x.id != id { }
    }
  }

  lemma {:induction false} RemoveIdIs(jobs: seq<Job>, id: string)
    ensures forall x :: x in RemoveId(jobs, id) <==> x in jobs && x.id != id
  {
    if jobs != [] {
      RemoveIdIs(jobs[..|jobs| - 1], id);
      assert jobs == jobs[..|jobs| - 1] + [jobs[|jobs| - 1]];
    }
  }

  /** A fresh run owes the next one each job it is due exactly when the first record of that id spells
      its state out. */
  lemma BootOwesIff(doc: Doc, run: string, fire: Fire, id: string)
    requires run != "" && run != doc.run.id && id in Do(doc, Boot(run, fire)).run.due
    ensures Has(doc.jobs, id)
    ensures Pending(Do(doc, Boot(run, fire)), id) <==> RecordedActive(doc.jobs[Find(doc.jobs, id)])
  {
    var jobs := Orphaned(doc);
    DueIff(jobs, fire, id);
    CarryExact(doc.jobs, doc.run.due, doc.run.done,
               "run " + doc.run.id + " stopped before its close-out without checkpointing it");
    assert Find(jobs, id) == Find(doc.jobs, id);
    var job :| job in jobs && job.id == id && DueOf(job, fire) != [];
    var k :| 0 <= k < |jobs| && jobs[k] == job;
  }

  /** What the close-out carries, job by job: due, not checkpointed, first of its id, and with its
      state spelt out. */
  lemma CloseCarriesIff(doc: Doc, why: string, k: nat)
    requires doc.run.id != "" && k < |doc.jobs|
    ensures
      var text := "run " + doc.run.id + " " + why + " before checkpointing it";
      var after := Do(doc, Close(doc.run.id, why)).jobs;
      var id := doc.jobs[k].id;
      after[k] == if id in doc.run.due && id !in doc.run.done && Find(doc.jobs, id) == k && RecordedActive(doc.jobs[k])
                  then doc.jobs[k].(carry := text) else doc.jobs[k]
  {
    CarryExact(doc.jobs, doc.run.due, doc.run.done, "run " + doc.run.id + " " + why + " before checkpointing it");
  }

  /** What a boot carries of a run that never closed, and the ledger it opens; a resumed run's is left alone. */
  lemma BootCarriesIff(doc: Doc, run: string, fire: Fire, k: nat)
    requires k < |doc.jobs|
    ensures run == doc.run.id ==> Do(doc, Boot(run, fire)) == doc
    ensures
      run != doc.run.id ==>
        var text := "run " + doc.run.id + " stopped before its close-out without checkpointing it";
        var (t, id) := (Do(doc, Boot(run, fire)), doc.jobs[k].id);
        && |t.jobs| == |doc.jobs| && t.run.id == run && t.run.done == {} && !t.run.ended
        && t.jobs[k] == (if doc.run.id != "" && !doc.run.ended && id in doc.run.due && id !in doc.run.done
                            && Find(doc.jobs, id) == k && doc.jobs[k].state == Some("active")
                         then doc.jobs[k].(carry := text) else doc.jobs[k])
        && (id in t.run.due <==> SomeDue(t.jobs, fire, id))
  {
    CarryExact(doc.jobs, doc.run.due, doc.run.done,
               "run " + doc.run.id + " stopped before its close-out without checkpointing it");
    if run != doc.run.id { DueIff(Do(doc, Boot(run, fire)).jobs, fire, doc.jobs[k].id); }
  }

  /** A job without a state key is due, is not carried when the run ends without touching it, and
      rests in the next run: it is lost. */
  lemma UnspelledStateIsLost()
    ensures
      var job := Job("a", None, "", None, 0, None);
      var checks := [Check("c", Some("a"))];
      var first := Fire(Some(Gate(true, [Row("c", true)])), checks, 0, 0);
      var quiet := Fire(Some(Gate(true, [Row("c", false)])), checks, 0, 0);
      var start := Do(Doc([job], Ledger("", [], {}, false)), Boot("r", first));
      var next := Do(Do(start, Close("r", "ended")), Boot("s", quiet));
      "a" in start.run.due && next.run.due == []
  {
    var job := Job("a", None, "", None, 0, None);
    var checks := [Check("c", Some("a"))];
    var first := Fire(Some(Gate(true, [Row("c", true)])), checks, 0, 0);
    var quiet := Fire(Some(Gate(true, [Row("c", false)])), checks, 0, 0);
    var start := Do(Doc([job], Ledger("", [], {}, false)), Boot("r", first));
    assert checks[..0] == [] && Order(checks) == ["a"];
    assert Owner(checks, ["a"], "c") == Some("a");
    assert [Row("c", true)][..0] == [] && [job][..0] == [];
    assert Owned(first, Answers(first), "a") == [Work("c")];
    assert Due([job], first) == [Entry("a", Why(job, first))];
    var due := Ids(Due([job], first));
    assert due == ["a"] && due[..0] == [];
    UnspelledEnd(job, start, quiet);
  }

  lemma UnspelledEnd(job: Job, start: Doc, quiet: Fire)
    requires job == Job("a", None, "", None, 0, None) && start == Doc([job], Ledger("r", ["a"], {}, false))
    requires quiet == Fire(Some(Gate(true, [Row("c", false)])), [Check("c", Some("a"))], 0, 0)
    ensures Do(Do(start, Close("r", "ended")), Boot("s", quiet)).run.due == []
  {
    var closed := Do(start, Close("r", "ended"));
    CloseCarriesIff(start, "ended", 0);
    assert closed.jobs == [job];
    var checks, rows := quiet.checks, [Row("c", false)];
    assert checks[..0] == [] && Order(checks) == ["a"];
    assert Owner(checks, ["a"], "c") == Some("a");
    assert rows[..0] == [] && Owned(quiet, rows, "a") == [] && Loose(quiet, rows) == [];
    assert Why(job, quiet) == [];
    assert Due([job], quiet) == [];
  }

  // ---------------------------------------------------------------------- the next due job

  /** _next_due: the job a run is moved to after a checkpoint. */
  function NextDue(doc: Doc, due: seq<string>): Option<string> {
    if due == [] then None
    else if Unprocessed(doc.jobs, doc.run.done, due[0]) then Some(due[0])
    else NextDue(doc, due[1..])
  }

  /** finish_owed: what keeps a run from finishing. */
  predicate FinishOwed(doc: Doc) {
    exists id :: id in doc.run.due && id !in doc.run.done && Has(doc.jobs, id) && IsActive(doc.jobs[Find(doc.jobs, id)])
  }

  lemma {:induction false} NextDueIs(doc: Doc, due: seq<string>)
    ensures NextDue(doc, due).Some? <==> exists id :: id in due && Unprocessed(doc.jobs, doc.run.done, id)
    ensures NextDue(doc, due).Some? ==> NextDue(doc, due).value in due && NextDue(doc, due).value !in doc.run.done
  {
    if due != [] && !Unprocessed(doc.jobs, doc.run.done, due[0]) { NextDueIs(doc, due[1..]); }
  }

  /** It is the first of the due list that is recorded active and has not been settled. */
  lemma {:induction false} NextDueIsFirst(doc: Doc, due: seq<string>, k: nat)
    requires k < |due| && due[k] !in doc.run.done && Has(doc.jobs, due[k])
    requires doc.jobs[Find(doc.jobs, due[k])].state == Some("active")
    requires forall i :: 0 <= i < k ==>
               || due[i] in doc.run.done || !Has(doc.jobs, due[i])
               || doc.jobs[Find(doc.jobs, due[i])].state != Some("active")
    ensures NextDue(doc, due) == Some(due[k])
  {
    if k > 0 { NextDueIsFirst(doc, due[1..], k - 1); }
  }

  /** "Every due job is processed" is said while the finish is still refused exactly when all that is
      left are jobs whose records have no state key. */
  lemma NothingNextYetOwedIff(doc: Doc)
    ensures NextDue(doc, doc.run.due).None? && FinishOwed(doc) <==>
            && FinishOwed(doc)
            && forall id :: id in doc.run.due && id !in doc.run.done && Has(doc.jobs, id)
                            && IsActive(doc.jobs[Find(doc.jobs, id)])
                            ==> doc.jobs[Find(doc.jobs, id)].state.None?
  {
    NextDueIs(doc, doc.run.due);
    forall id | id in doc.run.due && id !in doc.run.done && Has(doc.jobs, id) && IsActive(doc.jobs[Find(doc.jobs, id)])
      ensures Unprocessed(doc.jobs, doc.run.done, id) <==> doc.jobs[Find(doc.jobs, id)].state.Some?
    {
    }
  }
}

/** state/jobs.json as the engine edits it, under the store's lock. */
module JobsStore {
  import opened Basics
  import T = Jobs

  class Store {
    var jobs: seq<T.Job>
    var run: T.Ledger

    ghost function State(): T.Doc
      reads this
    {
      T.Doc(jobs, run)
    }

    /** The loop of carry_unprocessed and of _orphaned. */
    method CarryAll(text: string) returns (carried: seq<string>)
      modifies this`jobs
      ensures jobs == T.Carry(old(jobs), run.due, run.done, text)
      ensures carried == T.CarriedIds(old(jobs), run.due, run.done)
    {
      carried := [];
      var i := 0;
      while i < |run.due|
        invariant i <= |run.due| && jobs == T.Carry(old(jobs), run.due[..i], run.done, text)
        invariant carried == T.CarriedIds(old(jobs), run.due[..i], run.done)
      {
        var id := run.due[i];
        assert run.due[..i + 1][..i] == run.due[..i];
        T.CarryExact(old(jobs), run.due[..i], run.done, text);
        var k := T.Find(jobs, id);
        if k < |jobs| && id !in run.done && T.RecordedActive(jobs[k]) {
          jobs := jobs[k := jobs[k].(carry := text)];
          carried := carried + [id];
        }
        i := i + 1;
      }
      assert run.due[..|run.due|] == run.due;
    }

    method Boot(id: string, fire: T.Fire)
      modifies this
      ensures State() == T.Do(old(State()), T.Act.Boot(id, fire))
    {
      if run.id == id {
        return;
      }
      if run.id != "" && !run.ended {
        var _ := CarryAll("run " + run.id + " stopped before its close-out without checkpointing it");
      }
      var due, resting := T.DueForRun(jobs, fire);
      run := T.Ledger(id, T.Ids(due), {}, false);
    }

    method Checkpoint(id: string, deferred: bool, summary: string, wake: T.WakeArg, today: int, now: int)
      modifies this
      ensures State() == T.Do(old(State()), T.Act.Checkpoint(id, deferred, summary, wake, today, now))
    {
      var k := T.Find(jobs, id);
      if k == |jobs| {
        return;
      }
      var job := jobs[k].(last := Some(now));
      job := job.(carry := if deferred then "deferred by " + (run.id + ": " + summary[..Min(300, |summary|)]) else "");
      match wake {
        case Until(day) => job := job.(wake := day);
        case Clear => job := job.(wake := None);
        case Keep =>
          if job.wake.Some? && job.wake.value <= today {
            job := job.(wake := None);
          }
      }
      jobs := jobs[k := job];
      run := run.(done := run.done + {id});
    }

    method CarryUnprocessed(id: string, why: string) returns (carried: seq<string>)
      modifies this
      ensures State() == T.Do(old(State()), T.Act.Close(id, why))
      ensures carried == if old(run.id) != id || id == "" then []
                         else T.CarriedIds(old(jobs), old(run.due), old(run.done))
    {
      if run.id != id || id == "" {
        return [];
      }
      carried := CarryAll("run " + id + " " + why + " before checkpointing it");
      run := run.(ended := true);
    }

    method NextDue() returns (next: Option<string>)
      ensures next == T.NextDue(State(), run.due)
    {
      var i := 0;
      while i < |run.due|
        invariant i <= |run.due| && T.NextDue(State(), run.due[i..]) == T.NextDue(State(), run.due)
      {
        if T.Unprocessed(jobs, run.done, run.due[i]) {
          return Some(run.due[i]);
        }
        assert run.due[i..][1..] == run.due[i + 1..];
        i := i + 1;
      }
      return None;
    }
  }
}
