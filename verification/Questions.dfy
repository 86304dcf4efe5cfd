/** The console's one reader of /api/questions (static/questions-store.js): a shared snapshot,
    overlapping reads, local answers that outrank stale reads, and a throttle that still owes a
    trailing read.

    Time is in milliseconds and never goes back. A handler runs to its end, so each is one step. */
module Questions {
  import opened Basics

  const MIN_MS: nat := 3000

  datatype Item = Item(qid: string, answered: bool, answer: string)
  datatype Mark = Mark(at: nat, text: string)
  datatype Snapshot = Snapshot(items: seq<Item>, settled: nat, at: nat)

  /** A read that began at `at`; `resolved` once its answer has been handled, `dead` once its
      promise has settled and been forgotten. */
  datatype Read = Read(at: nat, settled: nat, resolved: bool, dead: bool)

  /** One entry of the console's history. `bus` marks a read that a bus event began. */
  datatype Entry =
    | Answered(qid: string, at: nat, text: string)
    | Published(snapshot: Snapshot, served: seq<Item>)   // and the list the server sent
    | BusEvent
    | ReadBegan(at: nat, bus: bool)

  datatype Store = Store(
    snapshot: Option<Snapshot>, inflight: Option<nat>, cooldown: Option<nat>, trailing: bool,
    wanted: nat, answeredHere: map<string, Mark>, subscribers: nat,
    now: nat, begun: seq<Read>, history: seq<Entry>)

  function Start(now: nat): Store {
    Store(None, None, None, false, 0, map[], 0, now, [], [])
  }

  function Log(s: Store, e: Entry): Store {
    s.(history := s.history + [e])
  }

  // ---------------------------------------------------------------------- answers

  function MarkAnswered(s: Store, qid: string, text: string): Store {
    if qid == "" then s
    else Log(s.(answeredHere := s.answeredHere[qid := Mark(s.now, text)]), Answered(qid, s.now, text))
  }

  /** One question of a list read at `at`, as the marks let it through. */
  function HealedItem(q: Item, marks: map<string, Mark>, at: nat): Item {
    if q.qid !in marks || at > marks[q.qid].at || q.answered then q
    else q.(answered := true, answer := if q.answer != "" then q.answer else marks[q.qid].text)
  }

  /** A list read after the answer speaks for itself: the mark is dropped. */
  function Left(q: Item, marks: map<string, Mark>, at: nat): map<string, Mark> {
    if q.qid in marks && at > marks[q.qid].at then marks - {q.qid} else marks
  }

  /** A list read at `at`: each question healed by the marks as they stand when it is reached, and
      the marks left once the questions read after their answer have dropped theirs. */
  function Healed(items: seq<Item>, marks: map<string, Mark>, at: nat): (seq<Item>, map<string, Mark>) {
    if items == [] then ([], marks)
    else
      var q := items[0];
      var rest := Healed(items[1..], Left(q, marks, at), at);
      ([HealedItem(q, marks, at)] + rest.0, rest.1)
  }

  // ---------------------------------------------------------------------- reads

  /** A read in flight is joined when it asked for at least the window wanted now. */
  predicate Joins(s: Store) {
    s.inflight.Some? && s.inflight.value < |s.begun| && s.begun[s.inflight.value].settled >= s.wanted
  }

  function FetchNow(s: Store, bus: bool): Store {
    if Joins(s) then s
    else Log(s.(inflight := Some(|s.begun|), begun := s.begun + [Read(s.now, s.wanted, false, false)]),
             ReadBegan(s.now, bus))
  }

  function Schedule(s: Store): Store {
    if s.cooldown.Some? then s.(trailing := true)
    else
      var s := if s.inflight.Some? then s.(trailing := true) else s;
      FetchNow(s, true).(cooldown := Some(s.now + MIN_MS))
  }

  datatype Action =
    | Tick(ms: nat)                       // time passes
    | Answer(qid: string, text: string)   // this console answers
    | Load                                // a reader asks for the list
    | Want(n: nat)                        // the settled window the next reads carry
    | Subscribe | Unsubscribe
    | Bus(relevant: bool)                 // a bus event; llm_task and llm_process are not relevant
    | Cooled                              // the cooldown timer fires
    | Resolve(id: nat, items: seq<Item>)  // read id answers with a list
    | Reject(id: nat)                     // read id fails
    | Settle(id: nat)                     // its `finally` runs

  predicate Enabled(s: Store, a: Action) {
    match a
    case Cooled => s.cooldown.Some? && s.cooldown.value <= s.now
    case Unsubscribe => s.subscribers > 0
    case Resolve(id, _) => id < |s.begun| && !s.begun[id].resolved
    case Reject(id) => id < |s.begun| && !s.begun[id].resolved
    case Settle(id) => id < |s.begun| && s.begun[id].resolved && !s.begun[id].dead
    case _ => true
  }

  function Apply(s: Store, a: Action): Store
    requires Enabled(s, a)
  {
    match a
    case Tick(ms) => s.(now := s.now + ms)
    case Answer(qid, text) => MarkAnswered(s, qid, text)
    case Load => FetchNow(s, false)
    case Want(n) => s.(wanted := n)
    case Subscribe => s.(subscribers := s.subscribers + 1)
    case Unsubscribe => s.(subscribers := s.subscribers - 1)
    case Bus(relevant) => OnBus(s, relevant)
    case Cooled => OnCooled(s)
    case Resolve(id, items) => OnPage(s, id, items)
    case Reject(id) => s.(begun := s.begun[id := s.begun[id].(resolved := true)])
    case Settle(id) => OnSettled(s, id)
  }

  function OnBus(s: Store, relevant: bool): Store {
    if s.subscribers == 0 || !relevant then s else Schedule(Log(s, BusEvent))
  }

  function OnCooled(s: Store): Store {
    var s := s.(cooldown := None);
    if s.trailing then Schedule(s.(trailing := false)) else s
  }

  function OnPage(s: Store, id: nat, items: seq<Item>): Store
    requires id < |s.begun|
  {
    var read := s.begun[id];
    var s := s.(begun := s.begun[id := read.(resolved := true)]);
    if s.snapshot.Some? && s.snapshot.value.at > read.at then s
    else
      var healed := Healed(items, s.answeredHere, read.at);
      var snapshot := Snapshot(healed.0, read.settled, read.at);
      Log(s.(snapshot := Some(snapshot), answeredHere := healed.1), Published(snapshot, items))
  }

  function OnSettled(s: Store, id: nat): Store
    requires id < |s.begun|
  {
    s.(begun := s.begun[id := s.begun[id].(dead := true)],
       inflight := if s.inflight == Some(id) then None else s.inflight)
  }

  predicate Run(s: Store, acts: seq<Action>)
    decreases acts
  {
    acts == [] || (Enabled(s, acts[0]) && Run(Apply(s, acts[0]), acts[1..]))
  }

  function Exec(s: Store, acts: seq<Action>): Store
    requires Run(s, acts)
    decreases acts
  {
    if acts == [] then s else Exec(Apply(s, acts[0]), acts[1..])
  }

  // ---------------------------------------------------------------------- no answer is resurrected

  predicate Shows(snapshot: Snapshot, qid: string) {
    forall q <- snapshot.items :: q.qid == qid ==> q.answered
  }

  /** Published snapshots are in the order they were asked for. */
  predicate InOrder(history: seq<Entry>) {
    forall i, k :: 0 <= i < k < |history| && history[i].Published? && history[k].Published? ==>
      history[i].snapshot.at <= history[k].snapshot.at
  }

  /** After an answer, a list asked for no later than it shows the question answered. */
  predicate NeverResurrected(history: seq<Entry>) {
    forall i, k :: 0 <= i < k < |history| && history[i].Answered? && history[k].Published?
                   && history[k].snapshot.at <= history[i].at ==>
      Shows(history[k].snapshot, history[i].qid)
  }

  /** Each answer is still marked, or a snapshot asked for after it has been published. */
  predicate Remembered(s: Store) {
    forall e <- s.history :: e.Answered? ==>
      || (e.qid in s.answeredHere && e.at <= s.answeredHere[e.qid].at)
      || (s.snapshot.Some? && s.snapshot.value.at > e.at)
  }

  predicate LatestPublished(s: Store) {
    forall e <- s.history :: e.Published? ==> s.snapshot.Some? && e.snapshot.at <= s.snapshot.value.at
  }

  predicate AnswersOk(s: Store) {
    InOrder(s.history) && NeverResurrected(s.history) && Remembered(s) && LatestPublished(s)
  }

  lemma {:induction false} HealedShows(items: seq<Item>, marks: map<string, Mark>, at: nat, qid: string)
    requires qid in marks && at <= marks[qid].at
    ensures forall q <- Healed(items, marks, at).0 :: q.qid == qid ==> q.answered
    ensures var left := Healed(items, marks, at).1; qid in left && left[qid] == marks[qid]
  {
    if items != [] {
      var q := items[0];
      var left := if q.qid in marks && at > marks[q.qid].at then marks - {q.qid} else marks;
      HealedShows(items[1..], left, at, qid);
    }
  }

  lemma AnswersPage(s: Store, id: nat, items: seq<Item>)
    requires AnswersOk(s) && Enabled(s, Resolve(id, items))
    ensures AnswersOk(OnPage(s, id, items))
  {
    var at := s.begun[id].at;
    var t := OnPage(s, id, items);
    if !(s.snapshot.Some? && s.snapshot.value.at > at) {
      var n := |s.history|;
      var p := t.history[n];
      forall i | 0 <= i < n && s.history[i].Answered? && at <= s.history[i].at
        ensures Shows(p.snapshot, s.history[i].qid)
      {
        assert s.history[i] in s.history;
        HealedShows(items, s.answeredHere, at, s.history[i].qid);
      }
      forall e | e in t.history && e.Answered?
        ensures (e.qid in t.answeredHere && e.at <= t.answeredHere[e.qid].at) || at > e.at
      {
        assert e in s.history;
        if at <= e.at { HealedShows(items, s.answeredHere, at, e.qid); }
      }
      forall i | 0 <= i < n && s.history[i].Published? ensures s.history[i].snapshot.at <= at {
        assert s.history[i] in s.history;
      }
    }
  }

  lemma AnswersMark(s: Store, qid: string, text: string)
    requires AnswersOk(s) && ClockOk(s)
    ensures AnswersOk(MarkAnswered(s, qid, text))
  {
    var t := MarkAnswered(s, qid, text);
    forall e | e in t.history && e.Answered?
      ensures || (e.qid in t.answeredHere && e.at <= t.answeredHere[e.qid].at)
              || (t.snapshot.Some? && t.snapshot.value.at > e.at)
    {
      if e !in s.history { assert e == Answered(qid, s.now, text); }
    }
  }

  // ---------------------------------------------------------------------- what is shown of each question

  /** Entry `i` is the last of the first `n` that answers the question. */
  predicate LastAnswer(history: seq<Entry>, n: nat, qid: string, i: nat)
    requires n <= |history|
  {
    && i < n && history[i].Answered? && history[i].qid == qid
    && forall k :: i < k < n && history[k].Answered? ==> history[k].qid != qid
  }

  /** A question the server says is open is shown answered when its last answer here is not older than
      the read, with the server's words or else those of that answer; any other is shown as it came. */
  ghost predicate ShownAs(history: seq<Entry>, n: nat, q: Item, at: nat, shown: Item)
    requires n <= |history|
  {
    && shown.qid == q.qid
    && (forall i: nat :: LastAnswer(history, n, q.qid, i) && at <= history[i].at && !q.answered ==>
          shown.answered && shown.answer == if q.answer != "" then q.answer else history[i].text)
    && (q.answered || (forall i: nat :: LastAnswer(history, n, q.qid, i) ==> history[i].at < at) ==> shown == q)
  }

  /** The snapshot is the list the server sent, question by question. */
  ghost predicate TrueTo(history: seq<Entry>, n: nat, served: seq<Item>, snapshot: Snapshot)
    requires n <= |history|
  {
    && |snapshot.items| == |served|
    && forall j :: 0 <= j < |served| ==> ShownAs(history, n, served[j], snapshot.at, snapshot.items[j])
  }

  ghost predicate AllTrue(history: seq<Entry>) {
    forall n :: 0 <= n < |history| && history[n].Published? ==>
      TrueTo(history, n, history[n].served, history[n].snapshot)
  }

  /** A mark is the last answer to its question. */
  ghost predicate MarkIs(history: seq<Entry>, qid: string, mark: Mark) {
    exists i: nat :: LastAnswer(history, |history|, qid, i) && mark == Mark(history[i].at, history[i].text)
  }

  ghost predicate MarksOk(s: Store) {
    forall qid <- s.answeredHere :: MarkIs(s.history, qid, s.answeredHere[qid])
  }

  lemma LastAnswerLater(history: seq<Entry>, e: Entry, n: nat, qid: string, i: nat)
    requires n <= |history|
    ensures LastAnswer(history + [e], n, qid, i) <==> LastAnswer(history, n, qid, i)
    ensures !(e.Answered? && e.qid == qid) ==>
              (LastAnswer(history + [e], |history| + 1, qid, i) <==> LastAnswer(history, |history|, qid, i))
  {
    var later := history + [e];
    assert later[|history|] == e;
    if LastAnswer(later, n, qid, i) {
      forall k | i < k < n && history[k].Answered? ensures history[k].qid != qid { assert later[k] == history[k]; }
    }
    if LastAnswer(later, |history| + 1, qid, i) && !(e.Answered? && e.qid == qid) {
      forall k | i < k < |history| && history[k].Answered? ensures history[k].qid != qid {
        assert later[k] == history[k];
      }
    }
  }

  lemma ShownLater(history: seq<Entry>, e: Entry, n: nat, q: Item, at: nat, shown: Item)
    requires n <= |history| && ShownAs(history, n, q, at, shown)
    ensures ShownAs(history + [e], n, q, at, shown)
  {
    forall i: nat ensures LastAnswer(history + [e], n, q.qid, i) <==> LastAnswer(history, n, q.qid, i) {
      LastAnswerLater(history, e, n, q.qid, i);
    }
  }

  lemma AllTrueLater(history: seq<Entry>, e: Entry)
    requires AllTrue(history) && (e.Published? ==> TrueTo(history, |history|, e.served, e.snapshot))
    ensures AllTrue(history + [e])
  {
    var later := history + [e];
    forall n | 0 <= n < |later| && later[n].Published?
      ensures TrueTo(later, n, later[n].served, later[n].snapshot)
    {
      var p := later[n];
      assert n < |history| ==> p == history[n];
      assert TrueTo(history, n, p.served, p.snapshot);
      forall j | 0 <= j < |p.served| ensures ShownAs(later, n, p.served[j], p.snapshot.at, p.snapshot.items[j]) {
        ShownLater(history, e, n, p.served[j], p.snapshot.at, p.snapshot.items[j]);
      }
    }
  }

  lemma MarkIsLater(history: seq<Entry>, e: Entry, qid: string, mark: Mark)
    requires if e.Answered? && e.qid == qid then mark == Mark(e.at, e.text) else MarkIs(history, qid, mark)
    ensures MarkIs(history + [e], qid, mark)
  {
    if e.Answered? && e.qid == qid {
      assert LastAnswer(history + [e], |history| + 1, qid, |history|);
    } else {
      var i: nat :| LastAnswer(history, |history|, qid, i) && mark == Mark(history[i].at, history[i].text);
      LastAnswerLater(history, e, |history|, qid, i);
      assert (history + [e])[i] == history[i];
    }
  }

  /** Marks dropped on the way change nothing for the questions behind them. */
  lemma {:induction false} HealedAt(items: seq<Item>, marks: map<string, Mark>, at: nat)
    ensures
      var (shown, left) := Healed(items, marks, at);
      && |shown| == |items|
      && (forall j :: 0 <= j < |items| ==> shown[j] == HealedItem(items[j], marks, at))
      && (forall qid <- left :: qid in marks && left[qid] == marks[qid])
  {
    if items != [] { HealedAt(items[1..], Left(items[0], marks, at), at); }
  }

  lemma OneLastAnswer(history: seq<Entry>, n: nat, qid: string, i: nat, k: nat)
    requires n <= |history| && LastAnswer(history, n, qid, i) && LastAnswer(history, n, qid, k)
    ensures i == k
  {
  }

  /** One question, healed by a mark that is its last answer, or by none. */
  lemma HealedTrue(s: Store, q: Item, at: nat)
    requires MarksOk(s) && Remembered(s) && !(s.snapshot.Some? && s.snapshot.value.at > at)
    ensures ShownAs(s.history, |s.history|, q, at, HealedItem(q, s.answeredHere, at))
  {
    var n := |s.history|;
    forall i: nat | LastAnswer(s.history, n, q.qid, i)
      ensures q.qid in s.answeredHere ==> s.answeredHere[q.qid] == Mark(s.history[i].at, s.history[i].text)
      ensures q.qid !in s.answeredHere ==> s.history[i].at < at
    {
      assert s.history[i] in s.history;
      if q.qid in s.answeredHere {
        var k: nat :| LastAnswer(s.history, n, q.qid, k)
                      && s.answeredHere[q.qid] == Mark(s.history[k].at, s.history[k].text);
        OneLastAnswer(s.history, n, q.qid, i, k);
      }
    }
    if q.qid in s.answeredHere {
      var k: nat :| LastAnswer(s.history, n, q.qid, k);
    }
  }

  lemma PageTrue(s: Store, id: nat, items: seq<Item>)
    requires MarksOk(s) && AllTrue(s.history) && Remembered(s) && Enabled(s, Resolve(id, items))
    ensures MarksOk(OnPage(s, id, items)) && AllTrue(OnPage(s, id, items).history)
  {
    var at := s.begun[id].at;
    var t := OnPage(s, id, items);
    if t.history != s.history {
      var e := t.history[|s.history|];
      HealedAt(items, s.answeredHere, at);
      forall j | 0 <= j < |items| ensures ShownAs(s.history, |s.history|, items[j], at, e.snapshot.items[j]) {
        HealedTrue(s, items[j], at);
      }
      AllTrueLater(s.history, e);
      forall qid | qid in t.answeredHere ensures MarkIs(t.history, qid, t.answeredHere[qid]) {
        MarkIsLater(s.history, e, qid, t.answeredHere[qid]);
      }
    }
  }

  lemma OtherTrue(s: Store, t: Store)
    requires MarksOk(s) && AllTrue(s.history)
    requires || (t.history == s.history && t.answeredHere == s.answeredHere)
             || exists e :: t.history == s.history + [e] && !e.Published?
                  && t.answeredHere == if e.Answered? then s.answeredHere[e.qid := Mark(e.at, e.text)]
                                       else s.answeredHere
    ensures MarksOk(t) && AllTrue(t.history)
  {
    if t.history != s.history {
      var e := t.history[|s.history|];
      AllTrueLater(s.history, e);
      forall qid | qid in t.answeredHere ensures MarkIs(t.history, qid, t.answeredHere[qid]) {
        MarkIsLater(s.history, e, qid, t.answeredHere[qid]);
      }
    }
  }

  lemma ScheduleTrue(s: Store)
    requires MarksOk(s) && AllTrue(s.history)
    ensures MarksOk(Schedule(s)) && AllTrue(Schedule(s).history)
  {
    OtherTrue(s, Schedule(s));
  }

  lemma TrueStep(s: Store, a: Action)
    requires MarksOk(s) && AllTrue(s.history) && Remembered(s) && Enabled(s, a)
    ensures MarksOk(Apply(s, a)) && AllTrue(Apply(s, a).history)
  {
    match a
    case Resolve(id, items) => PageTrue(s, id, items);
    case Bus(relevant) =>
      if s.subscribers != 0 && relevant {
        OtherTrue(s, Log(s, BusEvent));
        ScheduleTrue(Log(s, BusEvent));
      }
    case Cooled => if s.trailing { ScheduleTrue(s.(cooldown := None, trailing := false)); }
    case Answer(qid, text) =>
      assert qid != "" ==> Apply(s, a).history == s.history + [Answered(qid, s.now, text)];
      OtherTrue(s, Apply(s, a));
    case _ => OtherTrue(s, Apply(s, a));
  }

  // ---------------------------------------------------------------------- no event is lost

  predicate ClockOk(s: Store) {
    && (forall e <- s.history :: e.Answered? ==> e.at <= s.now)
    && (s.inflight.Some? ==> s.inflight.value < |s.begun|)
    && (s.cooldown.Some? ==> s.cooldown.value <= s.now + MIN_MS)
  }

  /** A relevant bus event is followed by the beginning of a read, or a read is owed. */
  predicate EventsOk(s: Store) {
    forall i :: 0 <= i < |s.history| && s.history[i].BusEvent? ==> Served(s, i)
  }

  predicate Served(s: Store, i: nat) {
    || (s.cooldown.Some? && s.trailing)
    || exists k :: i < k < |s.history| && s.history[k].ReadBegan?
  }

  /** Reads that bus events began are at least MIN_MS apart. */
  predicate Throttled(s: Store) {
    && (forall i, k :: 0 <= i < k < |s.history| && FromBus(s.history[i]) && FromBus(s.history[k]) ==>
          s.history[i].at + MIN_MS <= s.history[k].at)
    && (forall e <- s.history :: FromBus(e) ==>
          if s.cooldown.Some? then e.at + MIN_MS <= s.cooldown.value else e.at + MIN_MS <= s.now)
  }

  predicate FromBus(e: Entry) {
    e.ReadBegan? && e.bus
  }

  lemma EventsExtend(s: Store, t: Store, e: Entry)
    requires EventsOk(s) && t.history == s.history + [e] && e.ReadBegan?
    ensures EventsOk(t)
  {
    forall i | 0 <= i < |t.history| && t.history[i].BusEvent? ensures Served(t, i) {
      assert t.history[|s.history|].ReadBegan?;
    }
  }

  lemma EventsKept(s: Store, t: Store)
    requires EventsOk(s) && s.history <= t.history
    requires forall i :: |s.history| <= i < |t.history| ==> !t.history[i].BusEvent?
    requires s.cooldown.Some? && s.trailing ==> t.cooldown.Some? && t.trailing
    ensures EventsOk(t)
  {
    forall i | 0 <= i < |t.history| && t.history[i].BusEvent? ensures Served(t, i) {
      assert t.history[i] == s.history[i] && Served(s, i);
    }
  }

  /** After `schedule`, every event of the history is served, the one just logged included. */
  lemma EventsSchedule(s: Store)
    requires ClockOk(s)
    ensures EventsOk(Schedule(s))
  {
    var t := Schedule(s);
    if s.cooldown.None? && s.inflight.None? {
      assert t.history == s.history + [ReadBegan(s.now, true)];
      assert t.history[|s.history|].ReadBegan?;
    }
  }

  lemma ThrottledSchedule(s: Store)
    requires Throttled(s)
    ensures Throttled(Schedule(s))
  {
    var t := Schedule(s);
    if s.cooldown.None? {
      forall e | e in t.history && FromBus(e) ensures e.at + MIN_MS <= t.cooldown.value {
        if e in s.history { } else { assert e == ReadBegan(s.now, true); }
      }
      forall i, k | 0 <= i < k < |t.history| && FromBus(t.history[i]) && FromBus(t.history[k])
        ensures t.history[i].at + MIN_MS <= t.history[k].at
      {
        assert t.history[i] in s.history;
      }
    }
  }

  lemma ThrottledLog(s: Store, e: Entry)
    requires Throttled(s) && !FromBus(e)
    ensures Throttled(Log(s, e))
  {
  }

  predicate Valid(s: Store) {
    AnswersOk(s) && ClockOk(s) && EventsOk(s) && Throttled(s)
  }

  lemma AnswersLog(s: Store, e: Entry)
    requires AnswersOk(s) && !e.Answered? && !e.Published?
    ensures AnswersOk(Log(s, e))
  {
  }

  lemma AnswersSchedule(s: Store)
    requires AnswersOk(s)
    ensures AnswersOk(Schedule(s))
  {
    if s.cooldown.None? { AnswersLog(s, ReadBegan(s.now, true)); }
  }

  lemma ValidSchedule(s: Store)
    requires AnswersOk(s) && ClockOk(s) && Throttled(s)
    ensures Valid(Schedule(s))
  {
    AnswersSchedule(s);
    EventsSchedule(s);
    ThrottledSchedule(s);
  }

  lemma ValidBus(s: Store, relevant: bool)
    requires Valid(s)
    ensures Valid(OnBus(s, relevant))
  {
    if s.subscribers != 0 && relevant {
      AnswersLog(s, BusEvent);
      ThrottledLog(s, BusEvent);
      ValidSchedule(Log(s, BusEvent));
    }
  }

  lemma ValidCooled(s: Store)
    requires Valid(s) && Enabled(s, Cooled)
    ensures Valid(OnCooled(s))
  {
    var t := s.(cooldown := None);
    assert Throttled(t);
    if s.trailing {
      ValidSchedule(t.(trailing := false));
    } else {
      forall i | 0 <= i < |t.history| && t.history[i].BusEvent? ensures Served(t, i) {
        assert Served(s, i);
      }
    }
  }

  lemma ValidLoad(s: Store)
    requires Valid(s)
    ensures Valid(FetchNow(s, false))
  {
    if !Joins(s) {
      var e := ReadBegan(s.now, false);
      AnswersLog(s, e);
      ThrottledLog(s, e);
      EventsExtend(s, FetchNow(s, false), e);
    }
  }

  lemma ValidPage(s: Store, id: nat, items: seq<Item>)
    requires Valid(s) && Enabled(s, Resolve(id, items))
    ensures Valid(OnPage(s, id, items))
  {
    AnswersPage(s, id, items);
    var t := OnPage(s, id, items);
    EventsKept(s, t);
    if t.history != s.history { ThrottledLog(s, t.history[|s.history|]); }
  }

  lemma ValidAnswer(s: Store, qid: string, text: string)
    requires Valid(s)
    ensures Valid(MarkAnswered(s, qid, text))
  {
    AnswersMark(s, qid, text);
    EventsKept(s, MarkAnswered(s, qid, text));
    ThrottledLog(s, Answered(qid, s.now, text));
  }

  lemma ValidOther(s: Store, a: Action)
    requires Valid(s) && Enabled(s, a)
    requires a.Tick? || a.Want? || a.Subscribe? || a.Unsubscribe? || a.Reject? || a.Settle?
    ensures Valid(Apply(s, a))
  {
    EventsKept(s, Apply(s, a));
  }

  lemma ValidStep(s: Store, a: Action)
    requires Valid(s) && Enabled(s, a)
    ensures Valid(Apply(s, a))
  {
    match a
    case Answer(qid, text) => ValidAnswer(s, qid, text);
    case Load => ValidLoad(s);
    case Bus(relevant) => ValidBus(s, relevant);
    case Cooled => ValidCooled(s);
    case Resolve(id, items) => ValidPage(s, id, items);
    case _ => ValidOther(s, a);
  }

  lemma {:induction false} ValidRun(s: Store, acts: seq<Action>)
    requires Valid(s) && Run(s, acts)
    ensures Valid(Exec(s, acts))
    decreases acts
  {
    if acts != [] {
      ValidStep(s, acts[0]);
      ValidRun(Apply(s, acts[0]), acts[1..]);
    }
  }

  /** However reads overlap and in whatever order they finish, and although marks are dropped:
      snapshots are published in the order they were asked for, and no answer is resurrected. */
  lemma NoAnswerResurrected(now: nat, acts: seq<Action>)
    requires Run(Start(now), acts)
    ensures InOrder(Exec(Start(now), acts).history) && NeverResurrected(Exec(Start(now), acts).history)
  {
    ValidRun(Start(now), acts);
  }

  /** Every list published in any run is the server's list, in its order, and each question of it is as
      the server sent it, unless it was answered here no earlier than the list was asked for. */
  lemma ShownTrue(now: nat, acts: seq<Action>)
    requires Run(Start(now), acts)
    ensures AllTrue(Exec(Start(now), acts).history)
  {
    SoundRun(Start(now), acts);
  }

  /** Everything that is promised so far. */
  ghost predicate Sound(s: Store) {
    Valid(s) && MarksOk(s) && AllTrue(s.history)
  }

  lemma SoundStep(s: Store, a: Action)
    requires Sound(s) && Enabled(s, a)
    ensures Sound(Apply(s, a))
  {
    ValidStep(s, a);
    TrueStep(s, a);
  }

  lemma {:induction false} SoundRun(s: Store, acts: seq<Action>)
    requires Sound(s) && Run(s, acts)
    ensures Sound(Exec(s, acts))
    decreases acts
  {
    if acts != [] {
      SoundStep(s, acts[0]);
      SoundRun(Apply(s, acts[0]), acts[1..]);
    }
  }

  /** In particular, a question never answered here is published as it was sent. */
  lemma UnansweredUnchanged(now: nat, acts: seq<Action>, n: nat, j: nat)
    requires Run(Start(now), acts)
    requires
      var h := Exec(Start(now), acts).history;
      && n < |h| && h[n].Published? && j < |h[n].served|
      && forall e <- h[..n] :: e.Answered? ==> e.qid != h[n].served[j].qid
    ensures
      var h := Exec(Start(now), acts).history;
      |h[n].snapshot.items| == |h[n].served| && h[n].snapshot.items[j] == h[n].served[j]
  {
    ShownTrue(now, acts);
    var h := Exec(Start(now), acts).history;
    assert TrueTo(h, n, h[n].served, h[n].snapshot);
    forall i: nat ensures !LastAnswer(h, n, h[n].served[j].qid, i) {
      if i < n { assert h[..n][i] in h[..n]; }
    }
  }

  /** A list is published exactly when no newer one has been, and it is the one that was sent, with the
      window and the moment of its read. */
  lemma PublishedIff(s: Store, id: nat, items: seq<Item>)
    requires Enabled(s, Resolve(id, items))
    ensures
      var (t, read) := (OnPage(s, id, items), s.begun[id]);
      if s.snapshot.Some? && s.snapshot.value.at > read.at then
        t.history == s.history && t.snapshot == s.snapshot && t.answeredHere == s.answeredHere
      else
        && t.snapshot.Some? && t.snapshot.value.at == read.at && t.snapshot.value.settled == read.settled
        && t.history == s.history + [Published(t.snapshot.value, items)]
  {
  }

  /** A relevant event is heard exactly while somebody subscribes: then it is logged, and a read begins at once
      or is owed. */
  lemma BusHeard(s: Store, relevant: bool)
    requires ClockOk(s)
    ensures
      var t := OnBus(s, relevant);
      if s.subscribers > 0 && relevant then
        && s.history + [BusEvent] <= t.history && t.cooldown.Some?
        && (|| t.history == s.history + [BusEvent] + [ReadBegan(s.now, true)]
            || (t.history == s.history + [BusEvent] && t.trailing))
      else t == s
  {
  }

  /** A read is answered once: after an answer or a failure neither can come. */
  lemma AnsweredOnce(s: Store, a: Action, items: seq<Item>)
    requires (a.Resolve? || a.Reject?) && Enabled(s, a)
    ensures !Enabled(Apply(s, a), Resolve(a.id, items)) && !Enabled(Apply(s, a), Reject(a.id))
  {
  }

  /** The read in flight is the one begun last, until it is over. */
  predicate InFlightOk(s: Store) {
    s.inflight == if s.begun == [] || s.begun[|s.begun| - 1].dead then None else Some(|s.begun| - 1)
  }

  lemma {:induction false} InFlightIsLast(s: Store, acts: seq<Action>)
    requires InFlightOk(s) && Run(s, acts)
    ensures InFlightOk(Exec(s, acts))
    decreases acts
  {
    if acts != [] {
      InFlightStep(s, acts[0]);
      InFlightIsLast(Apply(s, acts[0]), acts[1..]);
    }
  }

  lemma InFlightStep(s: Store, a: Action)
    requires InFlightOk(s) && Enabled(s, a)
    ensures InFlightOk(Apply(s, a))
  {
  }

  /** A reader is served by a read that carries at least the window wanted when it asked. */
  lemma WindowWanted(s: Store, bus: bool)
    requires ClockOk(s)
    ensures
      var t := FetchNow(s, bus);
      && t.inflight.Some? && t.inflight.value < |t.begun| && t.begun[t.inflight.value].settled >= s.wanted
      && (s.inflight.None? || s.begun[s.inflight.value].settled < s.wanted ==>
            t.begun == s.begun + [Read(s.now, s.wanted, false, false)])
  {
  }

  /** No bus event that somebody subscribed to is lost to the throttle: a read begins after it or
      is owed, and the reads that bus events begin are at least MIN_MS apart. */
  lemma NoEventLost(now: nat, acts: seq<Action>)
    requires Run(Start(now), acts)
    ensures EventsOk(Exec(Start(now), acts)) && Throttled(Exec(Start(now), acts))
  {
    ValidRun(Start(now), acts);
  }

  /** What the end of a cooldown does with what is owed: a read begins exactly when one is owed and
      no read in flight can be joined; one that is joined leaves the read owed for another cooldown,
      because its answer may be older than the event. */
  lemma OwedReadBegins(s: Store)
    requires Valid(s) && Enabled(s, Cooled)
    ensures
      var t := OnCooled(s);
      && (t.history == s.history + [ReadBegan(s.now, true)] <==> s.trailing && !Joins(s))
      && (t.history == s.history <==> !s.trailing || Joins(s))
      && (t.trailing <==> s.trailing && s.inflight.Some?)
      && t.cooldown == (if s.trailing then Some(s.now + MIN_MS) else None)
  {
    assert |s.history + [ReadBegan(s.now, true)]| == |s.history| + 1;
  }

  /** And nothing owed is forgotten meanwhile: only the end of the cooldown takes the debt away. */
  lemma OwedStays(s: Store, a: Action)
    requires Enabled(s, a) && s.cooldown.Some? && s.trailing && !a.Cooled?
    ensures Apply(s, a).cooldown == s.cooldown && Apply(s, a).trailing
  {
  }
}

/** The module's state as an object, one method per handler. */
module QuestionsStore {
  import opened Basics
  import Q = Questions

  class Store {
    var snapshot: Option<Q.Snapshot>
    var inflight: Option<nat>
    var cooldown: Option<nat>
    var trailing: bool
    var wanted: nat
    var answeredHere: map<string, Q.Mark>
    var subscribers: nat
    var now: nat
    var begun: seq<Q.Read>
    var history: seq<Q.Entry>

    function State(): Q.Store
      reads this
    {
      Q.Store(snapshot, inflight, cooldown, trailing, wanted, answeredHere, subscribers, now, begun,
              history)
    }

    /** No answer resurrected so far, every list shown as it was sent, no event lost, the throttle kept. */
    ghost predicate Valid()
      reads this
    {
      Q.Sound(State())
    }

    constructor (now: nat)
      ensures Valid() && State() == Q.Start(now)
    {
      snapshot, inflight, cooldown, trailing, wanted := None, None, None, false, 0;
      answeredHere, subscribers, this.now, begun, history := map[], 0, now, [], [];
    }

    method MarkAnswered(qid: string, text: string)
      requires Valid()
      modifies this
      ensures Valid() && State() == Q.MarkAnswered(old(State()), qid, text)
    {
      Q.SoundStep(State(), Q.Answer(qid, text));
      if qid != "" {
        answeredHere := answeredHere[qid := Q.Mark(now, text)];
        history := history + [Q.Answered(qid, now, text)];
      }
    }

    /** `items.map`, dropping marks on the way. */
    method Heal(items: seq<Q.Item>, at: nat) returns (shown: seq<Q.Item>)
      modifies this`answeredHere
      ensures (shown, answeredHere) == Q.Healed(items, old(answeredHere), at)
    {
      shown := [];
      assert items[0..] == items && [] + Q.Healed(items, answeredHere, at).0 == Q.Healed(items, answeredHere, at).0;
      for i := 0 to |items|
        invariant HealedSoFar(items, i, shown, at) == Q.Healed(items, old(answeredHere), at)
      {
        HealedNext(items, i, shown, answeredHere, at);
        var q := HealOne(items[i], at);
        shown := shown + [q];
      }
      assert items[|items|..] == [] && shown + [] == shown;
    }

    /** The list with `i` questions behind it, if the rest is healed by the marks as they stand. */
    ghost function HealedSoFar(items: seq<Q.Item>, i: nat, shown: seq<Q.Item>, at: nat)
        : (seq<Q.Item>, map<string, Q.Mark>)
      requires i <= |items|
      reads this`answeredHere
    {
      var rest := Q.Healed(items[i..], answeredHere, at);
      (shown + rest.0, rest.1)
    }

    static lemma HealedNext(items: seq<Q.Item>, i: nat, shown: seq<Q.Item>, marks: map<string, Q.Mark>, at: nat)
      requires i < |items|
      ensures
        var all := Q.Healed(items[i..], marks, at);
        var rest := Q.Healed(items[i + 1..], Q.Left(items[i], marks, at), at);
        (shown + all.0, all.1) == ((shown + [Q.HealedItem(items[i], marks, at)]) + rest.0, rest.1)
    {
      assert items[i..][1..] == items[i + 1..];
      var rest := Q.Healed(items[i + 1..], Q.Left(items[i], marks, at), at);
      var q := Q.HealedItem(items[i], marks, at);
      assert shown + ([q] + rest.0) == (shown + [q]) + rest.0;
    }

    method HealOne(q: Q.Item, at: nat) returns (shown: Q.Item)
      modifies this`answeredHere
      ensures shown == Q.HealedItem(q, old(answeredHere), at)
      ensures answeredHere == Q.Left(q, old(answeredHere), at)
    {
      shown := q;
      if q.qid in answeredHere {
        if at > answeredHere[q.qid].at {
          answeredHere := answeredHere - {q.qid};
        } else if !q.answered {
          shown := q.(answered := true,
                      answer := if q.answer != "" then q.answer else answeredHere[q.qid].text);
        }
      }
    }

    method FetchNow(bus: bool)
      modifies this
      ensures State() == Q.FetchNow(old(State()), bus)
    {
      if inflight.Some? && inflight.value < |begun| && begun[inflight.value].settled >= wanted {
        return;
      }
      inflight := Some(|begun|);
      begun := begun + [Q.Read(now, wanted, false, false)];
      history := history + [Q.ReadBegan(now, bus)];
    }

    method Schedule()
      modifies this
      ensures State() == Q.Schedule(old(State()))
    {
      if cooldown.Some? { trailing := true; return; }
      if inflight.Some? { trailing := true; }
      FetchNow(true);
      cooldown := Some(now + Q.MIN_MS);
    }

    /** loadQuestions: a reader asks. */
    method Load()
      requires Valid()
      modifies this
      ensures Valid() && State() == Q.FetchNow(old(State()), false)
    {
      Q.SoundStep(State(), Q.Load);
      FetchNow(false);
    }

    method OnBus(relevant: bool)
      requires Valid()
      modifies this
      ensures Valid() && State() == Q.OnBus(old(State()), relevant)
    {
      Q.SoundStep(State(), Q.Bus(relevant));
      if subscribers == 0 || !relevant { return; }
      history := history + [Q.BusEvent];
      Schedule();
    }

    method OnCooled()
      requires Valid() && Q.Enabled(State(), Q.Cooled)
      modifies this
      ensures Valid() && State() == Q.OnCooled(old(State()))
    {
      Q.SoundStep(State(), Q.Cooled);
      cooldown := None;
      if trailing {
        trailing := false;
        Schedule();
      }
    }

    method OnPage(id: nat, items: seq<Q.Item>)
      requires Valid() && Q.Enabled(State(), Q.Resolve(id, items))
      modifies this
      ensures Valid() && State() == Q.OnPage(old(State()), id, items)
    {
      Q.SoundStep(State(), Q.Resolve(id, items));
      var at := begun[id].at;
      begun := begun[id := begun[id].(resolved := true)];
      if snapshot.Some? && snapshot.value.at > at { return; }
      var shown := Heal(items, at);
      snapshot := Some(Q.Snapshot(shown, begun[id].settled, at));
      history := history + [Q.Published(snapshot.value, items)];
    }

    method OnSettled(id: nat)
      requires Valid() && Q.Enabled(State(), Q.Settle(id))
      modifies this
      ensures Valid() && State() == Q.OnSettled(old(State()), id)
    {
      Q.SoundStep(State(), Q.Settle(id));
      begun := begun[id := begun[id].(dead := true)];
      if inflight == Some(id) { inflight := None; }
    }
  }
}
