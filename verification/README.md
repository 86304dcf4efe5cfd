# Routine scheduler: what its hard parts promise, and when

A model of the parts of the repository that are hard to get right, with proofs of what they promise:
the browser-stage spool with its memory readings, the resumable transcript tail, the desktop fleet,
the shared question cache, and the algorithms with real loops or bounds (capture and redaction, fire
times, the markdown block parser, job due and carry, fallback chains, item history, capability
raise and floor, attachment notes).

Concurrent parts are transition systems whose steps are one lock-held region, one callback or one
atomic file operation; the theorems are about every run. Beside each stands the imperative code, as a
class whose methods are proved equal to the steps. Loops that build something are methods with
invariants, proved equal to a specification function that the lemmas are about.

| module | models |
|---|---|
| `Spool`, `Runner`, `Follow` | the job directories, the runner's process statement by statement, and the client's reading of a log |
| `Memory`, `MemoryWatch` | a job's peak-memory reading and what its tag bounds, over a trace of the container |
| `LiveTail`, `LiveTailClient`, `LiveStream`, `LiveStreamClient` | catch-up plus live tail; one socket's life and the open-stream gauge |
| `Fleet`, `FleetBroker` | the slot allocator, its boot threads and power-offs |
| `Questions`, `QuestionsStore` | overlapping reads, local answers, throttling |
| `Capture` | the redacted, bounded capture |
| `FireTimes` | cron instants in a zone with folds and gaps |
| `Markdown` | the block structure of model-written text |
| `Jobs`, `JobsStore` | due, carried and settled jobs over runs |
| `Chains` | fallback chains and shared failure domains |
| `ItemRecords`, `ItemRecordsFile` | rows kept after they leave the report |
| `Grants` | raise and floor of capabilities |
| `Attachments` | the attachment note and its reader |
| `Basics` | shared datatypes and string helpers |

## What the proofs found

Each of these is stated as an if-and-only-if, or has a concrete run that shows it.

- `static/stream.js:98-103`: the guard of `onOnline` looks for an open `source` only. An `online`
  while a catch-up is in flight delivers its page's events twice (`LiveTail.OnlineWhileFetchingRepeats`);
  it is safe exactly when no request is in flight (`LiveTail.OnlineSafeIff`).
- `static/stream.js:44-46`: a page that holds fewer events than the dead stream already delivered loses
  the position. It keeps it exactly when it holds at least that many (`LiveTail.PageExact`).
- `deploy/desktop-broker/vms.py:178-182,248-254`: powering off a VM whose boot thread still runs
  leaves a VMM behind that nobody lists, and the slot's next owner boots on the same tap
  (`Fleet.TwoVmmsOnOneTap`); it is safe exactly when the boot has spawned or ended (`Fleet.CutSafeIff`).
- `deploy/desktop-broker/vms.py:265-267`: a power-off that throws never releases its slot
  (`Fleet.RaisedIsForever`); a slot can come back exactly while it has not thrown (`Fleet.ComesBackIff`).
- `deploy/desktop-broker/vms.py:62-64`: the slot addresses are addresses exactly for at most 64 slots;
  the setting has no upper bound (`Fleet.SlotNetsDisjoint`).
- `deploy/uitest/submit.py:128-133`: withdrawal is not atomic with what the runner does. `step` walks a
  list that `pending` made beforehand, and `pending` and `recover` take two looks at each directory: gone
  between them, it counts as unclaimed, or as unfinished (`deploy/uitest/runner.py:79,111-113,130-138`). One that meets
  a job in any of these windows, or one that is being started, running or closed, leaves the runner no end
  but a crash, and every other job is lost with it (`Spool.WithdrawWhileListing`,
  `Spool.WithdrawWhenListed`, `Spool.WithdrawWhileStarting`, `Spool.WithdrawRace`,
  `Spool.WithdrawWhileRecovering`, `Spool.DoomedIff`); it is harmless exactly when the runner is done with
  the directory (`Spool.WithdrawSafeIff`). `Runner` raises in no other state.
- `deploy/uitest/runner.py:125`: `rmtree` unlinks in whatever order the directory has. A removal that a
  crash cuts short leaves nothing to start or close again exactly when `job.json` goes before `claimed`
  and `claimed` before `exit` (`Spool.RemovalSafeIff`); nothing sees to that.
- `deploy/uitest/runner.py:146-151` waits for the process it started, not for those that one leaves
  behind, so `exit` does not mean that the log is complete. What `follow` has emitted is final exactly
  when no process holds the log at the moment it is read (`Follow.CompleteIff`, `Spool.LogFinalIff`);
  `Follow.LateWriteIsMissed` is an ordinary run in which it is not.
- `deploy/uitest/runner.py:92-103`: a crash between the process and its claim runs the job twice
  (`Spool.CrashReruns`), and a start is a second one exactly then (`Spool.SecondStartIff`).
- `deploy/uitest/runner.py:166-167`: past the deadline `exit` is written for jobs that are still alive
  (`Spool.SweepMarksLive`, `Spool.SweepSafeIff`).
- `src/rsched/jobs.py:320` and `src/rsched/engine/jobops.py:78,120` ask for `state == "active"`, while
  the due computation reads a missing state as active. A job without the key is due but never carried
  (`Jobs.UnspelledStateIsLost`, `Jobs.BootOwesIff`), and a run can be told that every due job is
  processed and still be refused its finish (`Jobs.NothingNextYetOwedIff`).
- `src/rsched/grants.py:349-351` says the result is exactly the union of what the held docs require.
  Two kinds of opt-in survive beyond it; `Grants.UnionIff` says exactly when the sentence is true.
- `src/rsched/captured_output.py:36-37,64`: longest-first order covers a value inside another, not two that
  overlap. The tail of one that starts inside another stays in the text (`Capture.OverlapLeavesTail`);
  an occurrence is replaced whole exactly otherwise (`Capture.ReplacedWholeIff`).
- `src/rsched/jobs.py:224-226` tells the reader that quiet days let an unwatched job rest. They do
  not (`Jobs.ClockDueIff`).

## Model

| member | source | states |
|---|---|---|
| `Spool.SpoolSafe` | deploy/uitest/runner.py:72-187 | in every run, crashes, restarts and clients' moves included: `exit` implies `claimed`; whatever follows, an `exit` and its result never change and no removed directory comes back; and a job's starts are those a crash cut short, and at most one more |
| `Spool.BoundaryIff` | deploy/uitest/runner.py:136-152 | between two jobs of the loop, the claimed directories without `exit` are exactly `running`, as long as no running job lost its directory |
| `Spool.OnwardStep` | deploy/uitest/protocol.py:99-133 | every step leaves a directory's log growing, its `exit` and what was complete before it fixed |
| `Spool.OnwardRun` | deploy/uitest/protocol.py:99-133 | the same over whole runs: what a reader saw stays true |
| `Spool.PruneSpares` | deploy/uitest/runner.py:119-133 | whatever `prune` can remove is neither pending nor running |
| `Spool.CancelIff` | deploy/uitest/protocol.py:99-133 | over every run a job's `cancel` stands iff some client cancelled it |
| `Spool.RemovalSafeIff` | deploy/uitest/runner.py:119-133 | a removal cut short leaves nothing pending and nothing unfinished iff the job file is unlinked before `claimed` and `claimed` before `exit` |
| `Spool.WithdrawSafeIff` | deploy/uitest/submit.py:128-133 | in every state, wherever the runner's thread is: a withdrawal leaves the runner an orderly end iff it is done with the directory: the job is neither running, nor looked at or listed in this pass, nor being started, closed or recovered |
| `Spool.WithdrawWhileListing` | deploy/uitest/runner.py:130-138 | a removal between the two looks of `pending` gets even a finished job listed, and the runner cannot get past it in any run without a crash |
| `Spool.WithdrawWhenListed` | deploy/uitest/runner.py:79 | so does one between the listing of a job and the opening of its log |
| `Spool.WithdrawRace` | deploy/uitest/submit.py:128-133 | a claim between the look and the removal leaves a running job without a directory, whose `exit` cannot be written |
| `Spool.WithdrawWhileStarting` | deploy/uitest/runner.py:92-103 | a removal between the process start and `claimed` keeps the runner at that point in every run without a crash |
| `Spool.WithdrawWhileRecovering` | deploy/uitest/runner.py:111-116 | so does one after `recover` saw `claimed`, whether or not the job had finished |
| `Spool.DoomedIff` | deploy/uitest/runner.py:60-167 | a directory the runner must still find is gone iff no run without a crash brings it to its end |
| `Spool.LogFinalIff` | deploy/uitest/runner.py:145-152 | a closed job's log is final, whatever follows, iff no process holds it any more |
| `Spool.CrashReruns` | deploy/uitest/runner.py:92-103 | a crash between the process start and `claimed` starts the job a second time, whatever else runs |
| `Spool.SecondStartIff` | deploy/uitest/runner.py:92-103 | a start is a second one iff a crash cut an earlier one short |
| `Spool.PromptRunSafe` | deploy/uitest/runner.py:155-167 | if the final sweep meets no live process, `exit` means the process has exited, in every run |
| `Spool.SweepSafeIff` | deploy/uitest/runner.py:166-167 | one close of the sweep is safe for all that follows iff the process has exited |
| `Spool.SweepMarksLive` | deploy/uitest/runner.py:166-167 | a job that outlives the deadline is closed alive |
| `Runner.Runner.ResultsSound` | deploy/uitest/runner.py:60-69 | every result that stands in a job's directory is what a watch of that very job read, and is sound for that job's own window |
| `Runner.Runner.StartJob` | deploy/uitest/runner.py:72-104 | start: the job is claimed and running, or claimed and closed with 2, each exactly as it could be run, or the process was stopped short, as it always is when the directory is gone; every other directory only moves onward |
| `Runner.Runner.ListAll` | deploy/uitest/runner.py:130-133 | every job that was pending and still stands is listed, and nothing that was not there |
| `Runner.Runner.Poll` | deploy/uitest/runner.py:47-57 | a job whose process has exited is closed: with what that returned, 128 plus the signal that ended it, or 125 while stopping, so with 0 iff it returned 0; one that is cancelled, or any when stopping, is sent SIGTERM the first time and SIGKILL once 10 seconds have passed, and no other is sent anything |
| `Runner.Runner.PruneAll` | deploy/uitest/runner.py:119-127 | no job that was pending or running is removed, and every other directory only moves onward |
| `Runner.Runner.Finish` | deploy/uitest/runner.py:60-69 | the reading of the job's own watch, if it could be stored, stands beside an `exit` with this code |
| `Runner.Runner.Step` | deploy/uitest/runner.py:136-152 | one pass claims what was pending, closes each job whose process had exited with what that returned, and ends at the boundary |
| `Runner.Runner.RecoverAll` | deploy/uitest/runner.py:107-116 | every unfinished directory gets an `exit`, or the process was stopped short |
| `Runner.Runner.Recover` | deploy/uitest/runner.py:107-116 | after `recover` nothing is claimed and unfinished and nothing is running; what was unfinished says 125, what was finished keeps its `exit`, what was pending stays so |
| `Runner.Runner.Stop` | deploy/uitest/runner.py:155-167 | after an orderly stop no job is left without `exit`, and each one that was running says 125 |
| `Runner.Runner.Serve` | deploy/uitest/runner.py:170-188 | the whole life of the process, its pruning included, is a run of the two machines, and an orderly end leaves no job without `exit` |
| `Follow.Follow` | deploy/uitest/submit.py:102-134 | the follow ends in the first turn that sees `exit` or no heartbeat, with the log as that turn read it, once and in order; on `exit` the code and the reading are final |
| `Follow.CompleteIff` | deploy/uitest/submit.py:111-124 | for every run and every schedule of looks: what a follow that ended on `exit` has emitted stays the whole log iff no process holds the log when it is read |
| `Follow.LateWriteIsMissed` | deploy/uitest/runner.py:145-152 | an ordinary run in which the output is not complete |
| `Follow.RunsAreSchedules` | deploy/uitest/submit.py:102-134 | what a client sees along any run of the spool, looking at any moments, is a schedule `Follow` is right about |
| `Memory.ReadingsSound` | deploy/uitest/cgroupmem.py:141-197 | in every run: `exact` iff the mark was reset and the job was alone throughout, and then the true peak; `upper` and lifetime marks never below it; `lower` never above it and attained |
| `Memory.ReadingSound` | deploy/uitest/cgroupmem.py:184-197 | the reading taken now is sound for the window that ends now |
| `Memory.ReadingIs` | deploy/uitest/cgroupmem.py:184-197 | in every run: there is a reading iff there is a cgroup and a sample was taken or the mark can be read; it is `lower` iff a sample was taken, and then the largest of them, with their number and the mark beside it; else it is the mark |
| `Memory.SamplesIff` | deploy/uitest/cgroupmem.py:141-163 | in every run a watch is sampled iff there is a `memory.current` and no reset: the job was not alone or the mark cannot be written |
| `Memory.ValidStep` | deploy/uitest/runner.py:136-152 | no step, a reset included, disturbs the window of a job that is running |
| `MemoryWatch.Watch.constructor` | deploy/uitest/cgroupmem.py:141-163 | reset iff there is a mark that can be written and the job is alone; sampling iff there is a current value and no reset |
| `MemoryWatch.Watch.Sample` | deploy/uitest/cgroupmem.py:165-173 | a sample raises the sampled value and the count |
| `MemoryWatch.Watch.ReadBack` | deploy/uitest/cgroupmem.py:184-197 | None, the samples or the mark, each exactly when due, with its tag, count and lifetime mark |
| `MemoryWatch.Watch.Finish` | deploy/uitest/cgroupmem.py:175-182 | the reading of a watch that is open is what its tag says |
| `LiveTail.NothingLostOrDuplicated` | static/stream.js:27-131 | in every disciplined run what reached `onEvent` is a prefix of the log: nothing lost, repeated or reordered |
| `LiveTail.PositionIsPrefix` | static/stream.js:28-29 | delivered count = index(base) + seen |
| `LiveTail.PageExact` | static/stream.js:38-47 | a page keeps the position iff it holds at least `seen` events |
| `LiveTail.GoodStep` | static/stream.js:38-129 | every step keeps the position and one activity under way |
| `LiveTail.CaughtUp` | static/stream.js:38-47 | a page to the end of the log leaves nothing undelivered |
| `LiveTail.OnlineWhileFetchingRepeats` | static/stream.js:98-103 | `online` during a catch-up delivers an event twice |
| `LiveTail.OnlineSafeIff` | static/stream.js:98-103 | `online` is safe iff no request is in flight |
| `LiveTail.CutStable` | static/stream.js:23-28 | an append-only log never moves an offset |
| `LiveTail.StoppedRun` | static/stream.js:124-129 | a tail that was stopped delivers nothing more in any run |
| `LiveTail.StoppedIff` | static/stream.js:85-96 | a tail is stopped for good iff its view stopped it or a page answered 404; no other failure stops it |
| `LiveTail.HaltStep` | static/stream.js:85-131 | the same of each step, and it is ended iff the stream said so and it was not resumed since |
| `LiveTail.CatchesUp` | static/stream.js:38-96 | from wherever a disciplined run without those has brought it, a tail that is not ended can still deliver the whole log, by answers, deliveries and its timer alone |
| `LiveTail.OnlineSkipsBackoff` | static/stream.js:98-103 | `online` during the backoff asks for the page at once and drops the timer |
| `LiveTail.ResumeCatchesUp` | static/stream.js:117-123 | an ended tail that is resumed asks from its position and can deliver the rest |
| `LiveTailClient.Client.OnPage` | static/stream.js:38-47 | a page's events past `seen` are delivered, `base` moves, the stream opens, as the step says |
| `LiveTailClient.Client.OnTranscript` | static/stream.js:52 | an event from the stream is delivered and counted |
| `LiveTailClient.Client.OnError` | static/stream.js:56-61 | a drop closes the stream and arms one backoff |
| `LiveTailClient.Client.OnOnline` | static/stream.js:98-103 | the guard as the code has it |
| `LiveTailClient.Client.Resume` | static/stream.js:117-123 | an ended tail catches up from `base` |
| `LiveTailClient.Client.Stop` | static/stream.js:124-129 | the tail is stopped, its stream closed and its timer cleared |
| `LiveStream.FailsOnce` | static/api.js:246-289 | over any streams of a page: the gauge is the number of sockets up, at most one error each, and a live socket is always watched |
| `LiveStream.QuietAfterEnd` | static/api.js:246-289 | a stream that was closed or failed never calls a handler again |
| `LiveStream.EndsIff` | static/api.js:248-288 | a stream fails iff, alive, it is refused, closed by the other side or silent; what each callback reports |
| `LiveStreamClient.Stream.Fail` | static/api.js:252-259 | one error, the watchdog off, the socket hung up, the gauge released once |
| `LiveStreamClient.Stream.Close` | static/api.js:288 | closing reports nothing and releases once |
| `Fleet.AllocatorSafe` | deploy/desktop-broker/vms.py:154-310 | in every interleaving: listed VMs have distinct slots below the limit, one per name, and each is powered off at most once |
| `Fleet.ReassignedAfterPowerOff` | deploy/desktop-broker/vms.py:256-291 | a slot is handed out again only after the power-off of everyone who had it has returned |
| `Fleet.RaisedIsForever` | deploy/desktop-broker/vms.py:265-267 | a power-off that throws keeps its slot for good |
| `Fleet.ComesBackIff` | deploy/desktop-broker/vms.py:256-291 | some run gives the VM's slot back iff its power-off has not thrown |
| `Fleet.OneVmmPerTap` | deploy/desktop-broker/vms.py:197-246 | if power-offs wait for the boot, every VMM is a listed VM's and no tap has two |
| `Fleet.CutSafeIff` | deploy/desktop-broker/vms.py:248-285 | powering off is safe iff the boot has spawned its VMM or has ended |
| `Fleet.TwoVmmsOnOneTap` | deploy/desktop-broker/vms.py:178-182 | `stop` during a boot, then another call: two VMMs on tap 0 |
| `Fleet.NoOrphanOnePerTap` | deploy/desktop-broker/vms.py:214-227 | without orphans no tap has two VMMs |
| `Fleet.SlotNetsDisjoint` | deploy/desktop-broker/vms.py:62-64 | no two slots share a /30, the gateway is its first host and the guest its second; the addresses are valid iff there are at most 64 slots |
| `Fleet.FreeFromLeast` | deploy/desktop-broker/vms.py:185-195 | the slot found is the least free one, and none is found only when all are held |
| `Fleet.RefusedIff` | deploy/desktop-broker/vms.py:154-195 | `ensure` refuses iff the desktop is shutting down, or is not listed while every slot is some listed VM's |
| `Fleet.EnsureGives` | deploy/desktop-broker/vms.py:154-177 | what it gives runs or is booting, is not shutting down and was used just now: the listed VM, or a new one if there was none or it had exited by itself; no other is touched |
| `FleetBroker.Broker.FreeSlot` | deploy/desktop-broker/vms.py:185-195 | the loop finds the least free slot |
| `FleetBroker.Broker.Ensure` | deploy/desktop-broker/vms.py:154-177 | the locked part of `ensure`: refused, found, or made, as the step says |
| `FleetBroker.Broker.Mark` | deploy/desktop-broker/vms.py:261-264 | one caller alone gets to power a VM off |
| `FleetBroker.Broker.Release` | deploy/desktop-broker/vms.py:287-291 | a VM is unlisted only by itself |
| `FleetBroker.Broker.Idle` | deploy/desktop-broker/vms.py:293-301 | exactly the ready, unlocked VMs idle past the limit |
| `Questions.NoAnswerResurrected` | static/questions-store.js:63-104 | in every run snapshots have non-decreasing `at`, and each one asked for no later than an answer shows it answered |
| `Questions.NoEventLost` | static/questions-store.js:124-141 | every relevant event is followed by a read or a trailing one is owed; bus reads are MIN_MS apart |
| `Questions.OwedReadBegins` | static/questions-store.js:131-134 | at the end of a cooldown a read begins iff one is owed and none in flight can be joined; a joined one stays owed |
| `Questions.OwedStays` | static/questions-store.js:124-135 | nothing but the end of the cooldown takes the debt away |
| `Questions.HealedShows` | static/questions-store.js:71-79 | a list no newer than the mark shows the question answered |
| `Questions.ShownTrue` | static/questions-store.js:71-101 | in every run each published list has the server's questions in its order, each as it was sent, unless it was open there and its last answer here is not older than the read: then it is answered, with the server's words or else that answer's |
| `Questions.UnansweredUnchanged` | static/questions-store.js:71-79 | in every run a question never answered here is published as it was sent |
| `Questions.PublishedIff` | static/questions-store.js:91-100 | a list is published iff no list of a later read has been, with its read's moment and window |
| `Questions.WindowWanted` | static/questions-store.js:81-104 | a reader is served by a read that carries the window wanted then |
| `Questions.AnsweredOnce` | static/questions-store.js:86-101 | a read is answered or fails once |
| `Questions.InFlightIsLast` | static/questions-store.js:99-103 | in every run the read in flight is the one begun last, until it is over |
| `Questions.BusHeard` | static/questions-store.js:124-141 | a relevant event is heard iff somebody subscribes: a read begins at once or is owed |
| `QuestionsStore.Store.Heal` | static/questions-store.js:71-79 | the loop heals each item by the marks as they stand when it is reached |
| `QuestionsStore.Store.FetchNow` | static/questions-store.js:81-104 | a read is joined or begun, by its settled window |
| `QuestionsStore.Store.OnPage` | static/questions-store.js:91-101 | only the read begun last is published |
| `Capture.RedactionCovers` | src/rsched/captured_output.py:53-64 | before the cut that the code finds no position that is left as it is starts a value in the whole stream, and no match is split |
| `Capture.ScanCut` | src/rsched/captured_output.py:61-64 | scanning the cut text again finds the same matches |
| `Capture.ScanMisses` | src/rsched/captured_output.py:61-64 | a position the scan passes over starts no value |
| `Capture.MatchIsLongest` | src/rsched/captured_output.py:36-37 | a value that contains another is replaced whole |
| `Capture.ReplacedWholeIff` | src/rsched/captured_output.py:36-37 | an occurrence of a value is inside one replaced piece iff it does not start inside an earlier match that ends before it does |
| `Capture.OverlapLeavesTail` | src/rsched/captured_output.py:61-64 | two overlapping values written over one another leave the tail of the second as it is |
| `Capture.FindCut` | src/rsched/captured_output.py:60-63 | the cut moves past the one match it would split |
| `Capture.NothingToRedact` | src/rsched/captured_output.py:58-64 | output without a value is unchanged |
| `Capture.OneSecret` | src/rsched/captured_output.py:53-66 | output with one credential in it comes out as what is before it, `[secret NAME redacted]`, and what is after it |
| `Capture.EncodeGrows` | src/rsched/captured_output.py:69-72 | a longer preview makes a longer envelope |
| `Capture.EnvelopeSays` | src/rsched/captured_output.py:69-72 | the envelope is the JSON object with the limit, the diagnostic and the preview: each reads back |
| `Capture.EscapedReads` | src/rsched/captured_output.py:69-72 | a JSON reader gets back any text that was escaped, control characters and surrogate pairs included |
| `Capture.Envelope` | src/rsched/captured_output.py:74-83 | the envelope fits the limit and its preview is the longest that does |
| `Capture.SecretPattern` | src/rsched/captured_output.py:27-37 | exactly the long enough values, longest first, each under the last name given |
| `Capture.SeenText` | src/rsched/captured_output.py:53-64 | the text seen is the read up to a cut, verbatim and in order but for its matches, in whose places stands `[secret NAME redacted]` with the name of the credential; the cut splits no match and leaves no value of the stream unreplaced |
| `Capture.ReadCapped` | src/rsched/captured_output.py:40-83 | such a text for exactly the given values of 8 characters or more, each under the last name given: whole with its diagnostic, in a bounded envelope, or refused, each exactly when due |
| `FireTimes.RepeatsIff` | src/rsched/firetimes.py:49-60 | a repeat iff an earlier instant showed the same local time |
| `FireTimes.GapNeverRepeats` | src/rsched/firetimes.py:49-60 | a skipped local time is never a repeat |
| `FireTimes.FiresOnce` | src/rsched/firetimes.py:63-73 | a fixed cron fires once at each local time and keeps every first occurrence; an interval keeps every instant; the order stays strict |
| `FireTimes.NamesIff` | src/rsched/firetimes.py:39-46 | a cron line names fixed times iff neither minute nor hour begins with a star; a shorthand does unless it is `@hourly` in any case |
| `FireTimes.NamesAloneIff` | src/rsched/firetimes.py:39-46 | a line of one field names them only as a shorthand, an empty one never |
| `FireTimes.Fires` | src/rsched/firetimes.py:63-73 | the loop yields exactly the kept instants |
| `FireTimes.NextFire` | src/rsched/firetimes.py:83-89 | the first kept instant, or none when switched off |
| `Markdown.MdToHtml` | static/md.js:74-150 | the one-pass loop, with at most one construct open, emits exactly the blocks of the grammar, at any depth |
| `Markdown.NothingLost` | static/md.js:99-148 | blocks are disjoint and in order, say what their lines say, and leave out only blank lines |
| `Markdown.BlocksConserve` | static/md.js:99-148 | the same from any line and at any quote depth |
| `Markdown.EachLineOnce` | static/md.js:99-148 | each line with something on it is in exactly one block |
| `Markdown.TablesAreSquare` | static/md.js:124-142 | every row and the alignments have the header's cell count |
| `Markdown.SplitJoin` | static/md.js:123 | a quote's body is parsed with the lines it had |
| `Markdown.SplitEnds` | static/md.js:75 | lines end with a newline, a return, or both |
| `Markdown.HeadingIff` | static/md.js:110-113 | a heading of level n iff n marks, 1 to 3, white space and a text on one line |
| `Markdown.QuoteIff` | static/md.js:114 | a quote iff the mark is there and the depth is below 4 |
| `Markdown.UnquotedIs` | static/md.js:119 | one mark and at most one white space are taken off |
| `Markdown.BulletIff` | static/md.js:143 | a line that heads no table is an item iff it is a dash or star, white space and a text |
| `Markdown.OrderedIff` | static/md.js:144 | and a numbered one iff digits, a stop, white space and a text; its number is their value |
| `Markdown.DecimalValue` | static/md.js:144 | a number written in decimal has that value |
| `Markdown.TableHeadIff` | static/md.js:66-72 | a table is headed iff the next line holds separators only, as many as the header has cells; each says how its column is aligned |
| `Markdown.SeparatorIff` | static/md.js:66-72 | a separator is dashes with a colon or none at each end, and the colons give the alignment |
| `Markdown.CellsRead` | static/md.js:51-62 | a row written cell by cell, its pipes behind backslashes, reads back |
| `Markdown.TrimIs` | static/md.js:106 | a trimmed text is what stands between white space |
| `Markdown.ReadCells` | static/md.js:51-62 | the cells of a row, with `\|` as a literal pipe |
| `Markdown.ReadSound` | static/md.js:106-145 | a line taken for a mark, a blank, a quote or a table head is one, and a table head has its separator row |
| `Jobs.NoOwedJobLost` | src/rsched/jobs.py:283-327 | over any run of boots, edits, checkpoints, ends and kills that does not settle it, an owed job is due in every later run whatever the gate says, and by the clock once a run has ended |
| `Jobs.BootOwesIff` | src/rsched/engine/jobops.py:83-100 | a job due in a fresh run is owed onward iff its record spells its state out |
| `Jobs.BootCarriesIff` | src/rsched/engine/jobops.py:69-100 | record by record, what a boot carries of a run that never closed, and the ledger it opens |
| `Jobs.CheckpointIff` | src/rsched/jobs.py:283-306 | a checkpoint leaves the job owed iff it is deferred and the state is spelt out |
| `Jobs.CheckpointRecords` | src/rsched/jobs.py:283-306 | what a checkpoint records: its moment, its carry or none, the wake date it is given, keeps or spends; no other record changes |
| `Jobs.AfterCheckpointIff` | src/rsched/jobs.py:202-227 | when a settled job is due by its clock again |
| `Jobs.UpdateRecords` | src/rsched/engine/jobops.py:173-209 | what an update changes, and that pausing or finishing settles the job for this run |
| `Jobs.EditsAre` | src/rsched/engine/jobops.py:153-290 | creating refuses a taken id, deleting takes every record of one and settles it, opening makes an active job due |
| `Jobs.CloseCarriesIff` | src/rsched/jobs.py:309-327 | the close-out carries exactly the due, unsettled, first records with a spelt-out active state |
| `Jobs.UnspelledStateIsLost` | src/rsched/jobs.py:320 | a job without a state key is due, is not carried, and rests in the next run |
| `Jobs.NothingNextYetOwedIff` | src/rsched/engine/jobops.py:115-122 | no next job although the finish is refused iff only jobs without a state key are left |
| `Jobs.NextDueIsFirst` | src/rsched/engine/jobops.py:115-122 | the next job is the first of the due list that is spelt active and not settled |
| `Jobs.ClockDueIff` | src/rsched/jobs.py:202-227 | when a job is due by its own clock, for all inputs |
| `Jobs.ClockReasonsAre` | src/rsched/jobs.py:202-227 | which reasons the clock gives, and in what order |
| `Jobs.WhyIff` | src/rsched/jobs.py:241-278 | an active job is due iff the clock says so, nothing was measured, or work is its own or nobody's |
| `Jobs.WhyHolds` | src/rsched/jobs.py:241-278 | each reason of a due job: the clock's, that the gate was not asked, each working check that is its own or nobody's |
| `Jobs.DueIff` | src/rsched/jobs.py:269-277 | the due list holds exactly the active jobs with reasons |
| `Jobs.DuePartitions` | src/rsched/jobs.py:269-277 | due and resting together are the active jobs in job order |
| `Jobs.UnmeasuredIsAllDue` | src/rsched/jobs.py:272-275 | an unmeasured gate makes every active job due |
| `Jobs.OwnerIff` | src/rsched/jobs.py:250-251 | a check has an owner iff some watched job has a check of that id |
| `Jobs.OwnerIsLast` | src/rsched/jobs.py:250-251 | of the jobs that watch a check, the last in the order owns it |
| `Jobs.OrderFirstSeen` | src/rsched/jobs.py:193-199 | the watched jobs come once each, by their first checks |
| `Jobs.DueForRun` | src/rsched/jobs.py:241-278 | the loops compute the due and resting lists with their reasons |
| `Jobs.ChecksByJob` | src/rsched/jobs.py:193-199 | the watched jobs in first-seen order, each with exactly its checks |
| `JobsStore.Store.Boot` | src/rsched/engine/jobops.py:69-100 | the orphaned run is carried, then the new ledger is opened; a resumed run is left alone |
| `JobsStore.Store.Checkpoint` | src/rsched/jobs.py:283-306 | last, carry, wake and the done set after a checkpoint |
| `JobsStore.Store.CarryUnprocessed` | src/rsched/jobs.py:309-327 | what is carried and which ids are returned |
| `JobsStore.Store.NextDue` | src/rsched/engine/jobops.py:115-122 | the first unprocessed job of the due list |
| `Chains.ChainReaches` | src/rsched/conformance.py:73-94 | the chain begins with the model, repeats nothing, holds exactly what fallbacks reach, the nearer never after the farther |
| `Chains.ChainIsBreadthFirst` | src/rsched/conformance.py:73-94 | each member was first named by an earlier one, in the order of those first namings |
| `Chains.OneChain` | src/rsched/conformance.py:73-94 | that description admits one chain only |
| `Chains.ChainNames` | src/rsched/conformance.py:82-94 | the loop ends on any catalog, cycles included, with that chain |
| `Chains.FlaggedIff` | src/rsched/conformance.py:60-133 | a role is flagged iff its model reaches no other, or all resolvable reached models have endpoints with one base URL or one key variable, the endpoint's name or kind standing in for an empty one |
| `Chains.SharedNames` | src/rsched/conformance.py:124-133 | host and credential are named iff all of them share one, and it is that one |
| `Chains.ProblemsInOrder` | src/rsched/conformance.py:97-134 | the report is one line per flagged role of the catalog, in the order of the roles |
| `Chains.ChainProblems` | src/rsched/conformance.py:97-134 | one problem per flagged role, in role order |
| `ItemRecords.StoreIsHistory` | src/rsched/item_records.py:58-85 | each id keeps the row of the last report that held it and left at the first later report with any rows |
| `ItemRecords.ReturnedIff` | src/rsched/item_records.py:79-86 | an id is returned iff this is the first report with rows since its last, it was live, and it is omitted |
| `ItemRecords.ReturnedOnce` | src/rsched/item_records.py:79-86 | each departure of a live row is returned by exactly one observation |
| `ItemRecords.HeldIff` | src/rsched/item_records.py:49-55 | a report holds an id iff some slot of its lists has it |
| `ItemRecords.HeldIsLast` | src/rsched/item_records.py:49-55 | the last slot of an id is the row that counts |
| `ItemRecords.RowIdIs` | src/rsched/item_records.py:49-55 | an id is its text stripped and in capitals |
| `ItemRecords.DecisionWins` | src/rsched/item_records.py:49-55 | an id that is both a finding and a decision is recorded as its last decision |
| `ItemRecords.LiveIff` | src/rsched/item_records.py:34 | live is `open` or `in_progress`, stripped and in any case |
| `ItemRecords.IdOrder` | src/rsched/item_records.py:86 | ids are sorted by letter and then by number |
| `ItemRecords.OtherIds` | src/rsched/item_records.py:86 | what follows the letter and is no number counts as 0 |
| `ItemRecordsFile.Recorder.Observe` | src/rsched/item_records.py:58-86 | the new store, and the departed live ids, each once and sorted |
| `Grants.BindIsFixpoint` | src/rsched/grants.py:322-376 | raise then floor is a fixpoint of both and holds everything required |
| `Grants.BindIff` | src/rsched/grants.py:322-376 | what survives is exactly what was there or required and is justified by a held doc |
| `Grants.RaiseIff` | src/rsched/grants.py:322-335 | the cascade adds exactly what the held docs require |
| `Grants.RaiseAgainIff` | src/rsched/grants.py:322-335 | raising again changes nothing iff only gated kinds are required |
| `Grants.FloorAgain` | src/rsched/grants.py:342-376 | flooring again changes nothing |
| `Grants.FloorIff` | src/rsched/grants.py:342-376 | the floor keeps a gated action some held doc requires or whose canonical doc is held, and an entry some doc requires or any part of a util that one requires whole |
| `Grants.OnceFirst` | src/rsched/grants.py:329-330 | each name once, in the order in which they first come |
| `Grants.KeepInOrder` | src/rsched/grants.py:365-375 | what is kept stays in its order |
| `Grants.UnionIff` | src/rsched/grants.py:349-351 | the result is exactly the union iff no opt-in survives by its canonical doc or as a verb |
| `Grants.ActionOptIn` | src/rsched/grants.py:362-368 | an action survives that no held doc requires |
| `Grants.VerbOptIn` | src/rsched/grants.py:369-375 | a verb survives that no held doc names |
| `Grants.BareNeedsBare` | src/rsched/grants.py:369-375 | a bare util survives only where the whole util is reserved |
| `Grants.MoreDocsMoreCaps` | src/rsched/grants.py:342-376 | holding more docs takes nothing away |
| `Grants.SettingsPass` | src/rsched/grants.py:338-339 | every setting passes through, its all-off value where none is given |
| `Grants.SplitRestores` | src/rsched/grants.py:152-155 | name and verb put back give the entry |
| `Grants.CapabilitiesFor` | src/rsched/grants.py:322-335 | the loops compute the cascade, order included |
| `Grants.FloorCapabilities` | src/rsched/grants.py:342-376 | the sets and filters compute the floor, order kept |
| `Attachments.RoundTripIff` | src/rsched/conversations.py:117-154 | a note after any text reads back iff each path is stripped, on one line and without the marker |
| `Attachments.ReadIsClean` | src/rsched/conversations.py:140-154 | whatever text is read, every path it gives is such a path |
| `Attachments.AttachmentRels` | src/rsched/conversations.py:140-154 | the loop reads the items of the last block up to the first other line |

## Left out

- HTTP, WebSocket, subprocess, signal and file-system calls: each is one abstract step; a rename is atomic, and so is the removal of a directory (`Spool.RemovalSafeIff` says what one cut short leaves).
- The order in which `pending` starts its jobs: any order is proved.
- The age at which `prune` removes a finished directory: it may remove one at any time.
- The pause between a sampler's read of `memory.current` and its store: one step.
- `_reading`'s percentages of the limit, its directory, and the JSON text of `result.json`.
- `protocol.carried_env`, submission's environment and the files that travel with a job.
- `_power_off`'s inside (button, grace, kill, shares, logs): two steps with the wait between them; VNC tokens and the kernel command line.
- Traces, status texts and backoff lengths of the tail (so what `retry` counts is not stated); the millisecond values of its jitter.
- A `result.json` is its reading; a failed write of it leaves the one that was there, which is none.
- Lone surrogates, which a Python string may hold: a character here is a Unicode scalar value.
- The proposals list of the question snapshot, and a failed read's message.
- croniter: its stream is any finite stretch of strictly increasing instants; zoneinfo: a zone is its offsets and isolated transitions.
- md.js's inline styling and HTML text: a block keeps the raw text of its lines and the line range it was made from; `parseInt` of a list number is exact here.
- A job's title, brief, workspace, history and summaries; the ledger's open job, resting list and time stamps; refusals that depend on the open job or on its accounting. A refused action changes nothing.
- Job ids are strings. A number in a hand-written store is listed as due, but `find` compares it with its text (src/rsched/jobs.py:320), so such a job is never carried.
- Two jobs of one id: `find` gives the first, as in the code, so only the first is ever carried.
- A run that was killed: its owed jobs are carried when the next run boots, not before, so until then the clock does not show them.
- Sorting roles by name and the words of a chain problem; roles whose value is not text.
- Upper and lower case beyond ASCII in item ids and statuses.
- Reading and writing the item-record file and its lock.
- `normalize_capabilities`, `effective_settings` and the denial path of the policy: `Grants.Normalized` is what normalising guarantees of a library.
- The sentence inside an attachment note is a parameter: any one line without the marker's bracket.
- `lanes.py`, `firstseen.py`, `assist_stats.py`, `configdial.py`, `answerfile.py`, the health vocabulary and the DOM code: they would add only easier members.
