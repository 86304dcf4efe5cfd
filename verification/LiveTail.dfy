/** The resumable transcript tail (static/stream.js over liveStream in static/api.js).

    The server keeps an append-only transcript of lines. A client reads a page of it over REST,
    opens a live stream at the offset the page ended at, and after a drop pages again, skipping
    what the dead stream had already delivered. The claim is that nothing is lost or duplicated. */
module LiveTail {
  import opened Basics

  datatype Event = Event(text: string)

  /** One complete line of the transcript: `body` bytes and a newline. A blank or malformed line
      carries no event; readers skip it and count its bytes. */
  datatype Line = Line(body: nat, event: Option<Event>) {
    function Size(): nat { body + 1 }
  }

  function Bytes(log: seq<Line>): nat {
    if log == [] then 0 else log[0].Size() + Bytes(log[1..])
  }

  function Events(log: seq<Line>): seq<Event> {
    if log == [] then []
    else (if log[0].event.Some? then [log[0].event.value] else []) + Events(log[1..])
  }

  lemma {:induction false} BytesConcat(a: seq<Line>, b: seq<Line>)
    ensures Bytes(a + b) == Bytes(a) + Bytes(b)
  {
    if a == [] {
      assert a + b == b;
    } else {
      assert (a + b)[1..] == a[1..] + b;
      BytesConcat(a[1..], b);
    }
  }

  lemma {:induction false} EventsConcat(a: seq<Line>, b: seq<Line>)
    ensures Events(a + b) == Events(a) + Events(b)
  {
    if a == [] {
      assert a + b == b;
    } else {
      assert (a + b)[1..] == a[1..] + b;
      EventsConcat(a[1..], b);
    }
  }

  /** The number of whole lines before byte `off`. */
  function Cut(log: seq<Line>, off: nat): (i: nat)
    ensures i <= |log|
  {
    if log == [] || off < log[0].Size() then 0 else 1 + Cut(log[1..], off - log[0].Size())
  }

  /** `off` is the end of a line (or the start of the log): every offset the server hands out. */
  predicate IsOffset(log: seq<Line>, off: nat) {
    Bytes(log[..Cut(log, off)]) == off
  }

  lemma {:induction false} CutOfPrefix(log: seq<Line>, i: nat)
    requires i <= |log|
    ensures Cut(log, Bytes(log[..i])) == i && IsOffset(log, Bytes(log[..i]))
  {
    if i > 0 {
      assert log[..i][1..] == log[1..][..i - 1];
      CutOfPrefix(log[1..], i - 1);
    }
  }

  /** An append-only log never moves an offset. */
  lemma CutStable(log: seq<Line>, more: seq<Line>, off: nat)
    requires IsOffset(log, off)
    ensures IsOffset(log + more, off) && Cut(log + more, off) == Cut(log, off)
  {
    assert (log + more)[..Cut(log, off)] == log[..Cut(log, off)];
    CutOfPrefix(log + more, Cut(log, off));
  }

  // ---------------------------------------------------------------------- state

  /** One socket: the offset it was opened at, how many events it has carried, and whether it can
      still call its handlers. `liveStream` reports a failure once and nothing after a close. */
  datatype Stream = Stream(from: nat, sent: nat, live: bool)

  /** A page request in flight: its offset and how many lines the log held when it was sent. */
  datatype Request = Request(from: nat, servable: nat)

  datatype Tail = Tail(
    // the closure variables of liveTail
    base: nat, seen: nat, source: Option<nat>, timer: Option<nat>, retry: nat,
    stopped: bool, ended: bool,
    // the world around it
    log: seq<Line>, offset: nat, streams: seq<Stream>, pending: seq<Request>,
    armed: set<nat>, timers: nat, delivered: seq<Event>)

  function Start(log: seq<Line>, offset: nat): Tail {
    Kick(Tail(offset, 0, None, None, 0, false, false, log, offset, [], [], {}, 0, []))
  }

  function Kick(s: Tail): Tail {
    if s.stopped || s.ended then s
    else s.(pending := s.pending + [Request(s.base, |s.log|)])
  }

  /** What a page request from `from` answers when it reaches line `m`. */
  function Page(log: seq<Line>, from: nat, m: nat): seq<Event>
    requires Cut(log, from) <= m <= |log|
  {
    Events(log[Cut(log, from)..m])
  }

  function CatchUp(s: Tail, events: seq<Event>, next: nat): Tail {
    if s.stopped then s
    else s.(delivered := s.delivered + events[Min(s.seen, |events|)..], base := next, seen := 0)
  }

  function Open(s: Tail): Tail {
    if s.stopped || s.ended then s
    else s.(source := Some(|s.streams|), streams := s.streams + [Stream(s.base, 0, true)])
  }

  function Kill(streams: seq<Stream>, id: nat): seq<Stream> {
    if id < |streams| then streams[id := streams[id].(live := false)] else streams
  }

  function Close(s: Tail): Tail {
    if s.source.None? then s
    else s.(streams := Kill(s.streams, s.source.value), source := None)
  }

  function ClearTimer(s: Tail): Tail {
    if s.timer.None? then s else s.(armed := s.armed - {s.timer.value})
  }

  function Reconnect(s: Tail): Tail {
    s.(timer := Some(s.timers), armed := s.armed + {s.timers}, timers := s.timers + 1,
       retry := s.retry + 1)
  }

  // ---------------------------------------------------------------------- handlers

  datatype Action =
    | Append(line: Line)              // the run writes a line
    | PageOk(i: nat, m: nat)          // request i answers with the lines up to m
    | PageFail(i: nat, gone: bool)    // request i is refused; `gone` is a 404
    | Deliver(id: nat)                // socket id hands over its next event
    | StateNote(id: nat)              // socket id hands over a state change
    | End(id: nat)                    // socket id says the resource ended
    | Drop(id: nat)                   // socket id fails
    | TimerFires(t: nat)              // the backoff is over
    | Online                          // the browser says connectivity is back
    | Resume
    | Stop

  function Undelivered(s: Tail, id: nat): seq<Event>
    requires id < |s.streams|
  {
    Events(s.log[Cut(s.log, s.streams[id].from)..])
  }

  predicate Enabled(s: Tail, a: Action) {
    match a
    case Append(_) => true
    case PageOk(i, m) => i < |s.pending| && Cut(s.log, s.pending[i].from) <= m <= |s.log|
    case PageFail(i, _) => i < |s.pending|
    case Deliver(id) =>
      id < |s.streams| && s.streams[id].live && s.streams[id].sent < |Undelivered(s, id)|
    case StateNote(id) => id < |s.streams| && s.streams[id].live
    case End(id) => id < |s.streams| && s.streams[id].live
    case Drop(id) => id < |s.streams| && s.streams[id].live
    case TimerFires(t) => t in s.armed
    case Online => true
    case Resume => true
    case Stop => true
  }

  function Apply(s: Tail, a: Action): Tail
    requires Enabled(s, a)
  {
    match a
    case Append(line) => s.(log := s.log + [line])
    case PageOk(i, m) => OnPage(s, i, m)
    case PageFail(i, gone) => OnPageError(s, i, gone)
    case Deliver(id) => OnTranscript(s, id)
    case StateNote(id) => s.(retry := 0)
    case End(id) => Close(s.(ended := true))
    case Drop(id) => OnError(s, id)
    case TimerFires(t) => Kick(s.(armed := s.armed - {t}))
    case Online => OnOnline(s)
    case Resume => OnResume(s)
    case Stop => ClearTimer(Close(s.(stopped := true)))
  }

  function OnPage(s: Tail, i: nat, m: nat): Tail
    requires Enabled(s, PageOk(i, m))
  {
    var q := s.pending[i];
    Open(CatchUp(s.(pending := RemoveAt(s.pending, i)), Page(s.log, q.from, m), Bytes(s.log[..m])))
  }

  function OnPageError(s: Tail, i: nat, gone: bool): Tail
    requires i < |s.pending|
  {
    var s := s.(pending := RemoveAt(s.pending, i));
    if s.stopped then s else if gone then s.(stopped := true) else Reconnect(s)
  }

  function OnTranscript(s: Tail, id: nat): Tail
    requires Enabled(s, Deliver(id))
  {
    var stream := s.streams[id];
    s.(retry := 0, seen := s.seen + 1, delivered := s.delivered + [Undelivered(s, id)[stream.sent]],
       streams := s.streams[id := stream.(sent := stream.sent + 1)])
  }

  function OnError(s: Tail, id: nat): Tail {
    var s := s.(streams := Kill(s.streams, id));
    if s.stopped || s.ended then s else Reconnect(Close(s))
  }

  function OnOnline(s: Tail): Tail {
    if s.stopped || s.ended || s.source.Some? then s else Kick(ClearTimer(s).(retry := 0))
  }

  function OnResume(s: Tail): Tail {
    if s.stopped || !s.ended then s else Kick(ClearTimer(s.(ended := false, retry := 0)))
  }

  // ---------------------------------------------------------------------- runs

  /** `online` starts no second catch-up while one is in flight, and a page covers at least the
      lines the log held when it was asked for. stream.js checks neither. */
  predicate Disciplined(s: Tail, a: Action) {
    && Enabled(s, a)
    && (a.Online? ==> s.stopped || s.ended || s.source.Some? || s.pending == [])
    && (a.PageOk? ==> s.pending[a.i].servable <= a.m)
  }

  predicate Run(s: Tail, acts: seq<Action>)
    decreases acts
  {
    acts == [] || (Disciplined(s, acts[0]) && Run(Apply(s, acts[0]), acts[1..]))
  }

  function Exec(s: Tail, acts: seq<Action>): Tail
    requires Run(s, acts)
    decreases acts
  {
    if acts == [] then s else Exec(Apply(s, acts[0]), acts[1..])
  }

  // ---------------------------------------------------------------------- the invariant

  /** Everything the log holds from the offset the tail was opened at. */
  function Wanted(s: Tail): seq<Event> {
    Events(s.log[Cut(s.log, s.offset)..])
  }

  /** The promise: what was handed to onEvent is a prefix of the log, in order, each event once. */
  predicate ExactlyOnce(s: Tail) {
    s.delivered <= Wanted(s)
  }

  /** `base` is where the last page ended and `seen` events past it have been delivered. */
  predicate Position(s: Tail) {
    At(s.log, s.offset, s.base, s.seen, s.delivered)
  }

  predicate At(log: seq<Line>, offset: nat, base: nat, seen: nat, delivered: seq<Event>) {
    && IsOffset(log, offset) && IsOffset(log, base) && Cut(log, offset) <= Cut(log, base)
    && seen <= |Events(log[Cut(log, base)..])|
    && delivered == Events(log[Cut(log, offset)..Cut(log, base)])
                    + Events(log[Cut(log, base)..])[..seen]
  }

  predicate StreamsOk(s: Tail) {
    && (forall id :: 0 <= id < |s.streams| && s.streams[id].live ==> s.source == Some(id))
    && (s.source.Some? ==>
          var id := s.source.value;
          id < |s.streams| && s.streams[id] == Stream(s.base, s.seen, true))
  }

  /** A request in flight was sent from `base`, after everything delivered so far was written. */
  predicate RequestsOk(s: Tail) {
    forall q <- s.pending :: !s.stopped ==>
      && q.from == s.base
      && Cut(s.log, s.base) <= q.servable <= |s.log|
      && s.seen <= |Events(s.log[Cut(s.log, s.base)..q.servable])|
  }

  /** A tail that is neither stopped nor ended has exactly one thing under way: a page request, a
      backoff timer or an open stream. It never goes quiet and never does two of them at once. */
  predicate OneActivity(s: Tail) {
    && (forall t <- s.armed :: t < s.timers && s.timer == Some(t))
    && (s.stopped ==> s.source.None? && s.armed == {} && |s.pending| <= 1)
    && (!s.stopped && s.ended ==> s.source.None? && s.armed == {} && s.pending == [])
    && (!s.stopped && !s.ended ==>
          || (|s.pending| == 1 && s.source.None? && s.armed == {})
          || (s.pending == [] && s.source.Some? && s.armed == {})
          || (s.pending == [] && s.source.None? && s.armed != {}))
  }

  predicate Good(s: Tail) {
    Position(s) && StreamsOk(s) && RequestsOk(s) && OneActivity(s)
  }

  lemma EventsSplit(log: seq<Line>, a: nat, b: nat, c: nat)
    requires a <= b <= c <= |log|
    ensures Events(log[a..c]) == Events(log[a..b]) + Events(log[b..c])
  {
    assert log[a..c] == log[a..b] + log[b..c];
    EventsConcat(log[a..b], log[b..c]);
  }

  /** Position is the promise with a count: delivered = index(base) + seen. */
  lemma PositionIsPrefix(s: Tail)
    requires Position(s)
    ensures ExactlyOnce(s)
    ensures |s.delivered| == |Events(s.log[Cut(s.log, s.offset)..Cut(s.log, s.base)])| + s.seen
  {
    EventsSplit(s.log, Cut(s.log, s.offset), Cut(s.log, s.base), |s.log|);
    assert s.log[Cut(s.log, s.offset)..|s.log|] == s.log[Cut(s.log, s.offset)..];
    assert s.log[Cut(s.log, s.base)..|s.log|] == s.log[Cut(s.log, s.base)..];
  }

  lemma GoodAppend(s: Tail, line: Line)
    requires Good(s)
    ensures Good(s.(log := s.log + [line]))
  {
    var log' := s.log + [line];
    var (o, b) := (Cut(s.log, s.offset), Cut(s.log, s.base));
    CutStable(s.log, [line], s.offset);
    CutStable(s.log, [line], s.base);
    assert log'[o..b] == s.log[o..b];
    assert log'[b..] == s.log[b..] + [line];
    EventsConcat(s.log[b..], [line]);
    forall q | q in s.pending && !s.stopped
      ensures log'[b..q.servable] == s.log[b..q.servable]
    {
    }
  }

  lemma Splice(front: seq<Event>, page: seq<Event>, tail: seq<Event>, seen: nat)
    requires seen <= |page|
    ensures front + (page + tail)[..seen] + page[seen..] == front + page
  {
    assert (page + tail)[..seen] == page[..seen];
    assert page[..seen] + page[seen..] == page;
  }

  /** A page keeps the position when, and only when, it holds at least the events the dead stream
      had delivered. `evs.slice(seen)` does not check that. */
  lemma PageExact(s: Tail, m: nat)
    requires Good(s) && !s.stopped && |s.pending| == 1
    requires Cut(s.log, s.base) <= m <= |s.log|
    ensures s.pending[0].from == s.base
    ensures |Page(s.log, s.base, m)| >= s.seen <==> Position(OnPage(s, 0, m))
    ensures |Page(s.log, s.base, m)| >= s.seen ==>
              OnPage(s, 0, m).delivered == Events(s.log[Cut(s.log, s.offset)..m])
  {
    var (o, b) := (Cut(s.log, s.offset), Cut(s.log, s.base));
    assert s.pending[0] in s.pending;
    var page := Page(s.log, s.base, m);
    var t := OnPage(s, 0, m);
    assert t.log == s.log && t.offset == s.offset && t.seen == 0;
    assert t.delivered == s.delivered + page[Min(s.seen, |page|)..];
    assert t.base == Bytes(s.log[..m]);
    CutOfPrefix(s.log, m);
    EventsSplit(s.log, o, b, m);
    EventsSplit(s.log, b, m, |s.log|);
    assert s.log[b..|s.log|] == s.log[b..];
    var front := Events(s.log[o..b]);
    if |page| >= s.seen {
      Splice(front, page, Events(s.log[m..|s.log|]), s.seen);
      assert t.delivered == Events(s.log[o..m]);
    } else {
      assert |t.delivered| == |front| + s.seen > |Events(s.log[o..m])|;
    }
  }

  lemma GoodPage(s: Tail, m: nat)
    requires Good(s) && Disciplined(s, PageOk(0, m))
    ensures Good(OnPage(s, 0, m))
  {
    if !s.stopped {
      var b := Cut(s.log, s.base);
      assert s.pending[0] in s.pending;
      EventsSplit(s.log, b, s.pending[0].servable, m);
      PageExact(s, m);
    }
  }

  lemma GoodDeliver(s: Tail, id: nat)
    requires Good(s) && Enabled(s, Deliver(id))
    ensures Good(OnTranscript(s, id))
  {
    var rest := Events(s.log[Cut(s.log, s.base)..]);
    assert s.source == Some(id);
    assert rest[..s.seen + 1] == rest[..s.seen] + [rest[s.seen]];
  }

  lemma GoodKick(s: Tail)
    requires Position(s) && StreamsOk(s) && !s.stopped && !s.ended
    requires s.pending == [] && s.source.None? && s.armed == {}
    ensures Good(Kick(s))
  {
    assert s.log[Cut(s.log, s.base)..|s.log|] == s.log[Cut(s.log, s.base)..];
  }

  lemma GoodNote(s: Tail, id: nat)
    requires Good(s)
    ensures Good(s.(retry := 0))
  {
    var t := s.(retry := 0);
    assert At(t.log, t.offset, t.base, t.seen, t.delivered);
  }

  lemma GoodEnd(s: Tail, id: nat)
    requires Good(s) && Disciplined(s, End(id))
    ensures Good(Close(s.(ended := true)))
  {
    var t := Close(s.(ended := true));
    assert At(t.log, t.offset, t.base, t.seen, t.delivered);
    assert s.source == Some(id);
  }

  lemma TimerCleared(s: Tail)
    requires OneActivity(s)
    ensures ClearTimer(s).armed == {}
  {
  }

  lemma GoodStop(s: Tail)
    requires Good(s)
    ensures Good(Apply(s, Stop))
  {
    TimerCleared(s);
    var t := Apply(s, Stop);
    assert At(t.log, t.offset, t.base, t.seen, t.delivered);
    assert t.armed == {} && t.source.None? && t.pending == s.pending;
    assert |s.pending| <= 1;
  }

  lemma GoodDrop(s: Tail, id: nat)
    requires Good(s) && Disciplined(s, Drop(id))
    ensures Good(OnError(s, id))
  {
    var t := OnError(s, id);
    assert At(t.log, t.offset, t.base, t.seen, t.delivered);
    assert s.source == Some(id);
  }

  lemma GoodPageError(s: Tail, i: nat, gone: bool)
    requires Good(s) && Disciplined(s, PageFail(i, gone))
    ensures Good(OnPageError(s, i, gone))
  {
    var t := OnPageError(s, i, gone);
    assert At(t.log, t.offset, t.base, t.seen, t.delivered);
  }

  lemma GoodRestart(s: Tail, a: Action)
    requires Good(s) && Disciplined(s, a) && (a.TimerFires? || a.Online? || a.Resume?)
    ensures Good(Apply(s, a))
  {
    match a
    case TimerFires(t) =>
      var s' := s.(armed := s.armed - {t});
      assert s.armed == {t};
      if !s.stopped && !s.ended { GoodKick(s'); }
    case Online =>
      if !(s.stopped || s.ended || s.source.Some?) {
        var t :| t in s.armed;
        assert s.armed == {t};
        GoodKick(ClearTimer(s).(retry := 0));
      }
    case Resume =>
      if !s.stopped && s.ended {
        GoodKick(ClearTimer(s.(ended := false, retry := 0)));
      }
  }

  lemma GoodStep(s: Tail, a: Action)
    requires Good(s) && Disciplined(s, a)
    ensures Good(Apply(s, a))
  {
    match a
    case Append(line) => GoodAppend(s, line);
    case PageOk(i, m) => GoodPage(s, m);
    case Deliver(id) => GoodDeliver(s, id);
    case TimerFires(_) => GoodRestart(s, a);
    case Online => GoodRestart(s, a);
    case Resume => GoodRestart(s, a);
    case Drop(id) => GoodDrop(s, id);
    case PageFail(i, gone) => GoodPageError(s, i, gone);
    case StateNote(id) => GoodNote(s, id);
    case End(id) => GoodEnd(s, id);
    case Stop => GoodStop(s);
  }

  lemma GoodStart(log: seq<Line>, offset: nat)
    requires IsOffset(log, offset)
    ensures Good(Start(log, offset))
  {
    var s := Tail(offset, 0, None, None, 0, false, false, log, offset, [], [], {}, 0, []);
    assert log[Cut(log, offset)..Cut(log, offset)] == [];
    GoodKick(s);
  }

  lemma {:induction false} GoodRun(s: Tail, acts: seq<Action>)
    requires Good(s) && Run(s, acts)
    ensures Good(Exec(s, acts))
    decreases acts
  {
    if acts != [] {
      GoodStep(s, acts[0]);
      GoodRun(Apply(s, acts[0]), acts[1..]);
    }
  }

  /** Over every disciplined interleaving of writes, pages, deliveries, drops, backoffs, `end`,
      `resume` and `stop`: exactly a prefix of the log has been delivered, with
      delivered = index(base) + seen, and an unfinished tail has exactly one thing under way. */
  lemma NothingLostOrDuplicated(log: seq<Line>, offset: nat, acts: seq<Action>)
    requires IsOffset(log, offset) && Run(Start(log, offset), acts)
    ensures
      var s := Exec(Start(log, offset), acts);
      && ExactlyOnce(s)
      && Cut(s.log, s.offset) <= Cut(s.log, s.base)
      && |s.delivered| == |Events(s.log[Cut(s.log, s.offset)..Cut(s.log, s.base)])| + s.seen
      && OneActivity(s)
  {
    GoodStart(log, offset);
    GoodRun(Start(log, offset), acts);
    PositionIsPrefix(Exec(Start(log, offset), acts));
  }

  lemma RunOfThree(s: Tail, a: Action, b: Action, c: Action)
    requires Disciplined(s, a) && Disciplined(Apply(s, a), b)
    requires Disciplined(Apply(Apply(s, a), b), c)
    ensures Run(s, [a, b, c])
    ensures Exec(s, [a, b, c]) == Apply(Apply(Apply(s, a), b), c)
  {
    assert [a, b, c][1..] == [b, c];
    assert [b, c][1..] == [c];
    assert [c][1..] == [];
    var s2 := Apply(Apply(s, a), b);
    assert Run(Apply(s2, c), []) && Exec(Apply(s2, c), []) == Apply(s2, c);
    assert Run(s2, [c]) && Exec(s2, [c]) == Apply(s2, c);
    assert Run(Apply(s, a), [b, c]) && Exec(Apply(s, a), [b, c]) == Apply(s2, c);
  }

  lemma LastEventCounts(log: seq<Line>, b: nat)
    requires b < |log| && log[|log| - 1].event.Some?
    ensures Events(log[b..|log|]) != []
  {
    var n := |log|;
    EventsSplit(log, b, n - 1, n);
    assert log[n - 1..n] == [log[n - 1]];
    assert Events([log[n - 1]]) != [];
  }

  /** A page that reaches the end of the log leaves nothing undelivered. */
  lemma CaughtUp(s: Tail)
    requires Good(s) && !s.stopped && |s.pending| == 1 && Cut(s.log, s.base) <= |s.log|
    ensures s.pending[0].from == s.base
    ensures OnPage(s, 0, |s.log|).delivered == Wanted(s)
  {
    var n := |s.log|;
    var b := Cut(s.log, s.base);
    assert s.pending[0] in s.pending;
    EventsSplit(s.log, b, s.pending[0].servable, n);
    PageExact(s, n);
    assert s.log[Cut(s.log, s.offset)..n] == s.log[Cut(s.log, s.offset)..];
  }

  /** The second of two pages asked for from `base` is delivered on top of the first. */
  lemma SecondPageRepeats(s: Tail, q: Request)
    requires Good(s) && !s.stopped && !s.ended && |s.pending| == 1
    requires q.from == s.base && Page(s.log, s.base, |s.log|) != []
    ensures
      var n := |s.log|;
      var s2 := OnPage(s.(pending := s.pending + [q]), 0, n);
      && s2.pending == [q] && s2.log == s.log
      && !ExactlyOnce(OnPage(s2, 0, n))
  {
    var n := |s.log|;
    CaughtUp(s);
    var s1 := s.(pending := s.pending + [q]);
    assert RemoveAt(s1.pending, 0) == [q];
    var s2 := OnPage(s1, 0, n);
    assert s2.delivered == Wanted(s) && s2.seen == 0;
    var s3 := OnPage(s2, 0, n);
    assert s3.delivered == s2.delivered + Page(s.log, s.base, n);
    assert Wanted(s3) == Wanted(s);
  }

  lemma OnlineAddsRequest(s: Tail)
    requires Good(s) && !s.stopped && !s.ended && s.source.None? && s.pending != []
    ensures OnOnline(s) == s.(retry := 0, pending := s.pending + [Request(s.base, |s.log|)])
  {
    assert ClearTimer(s).armed == s.armed;
  }

  lemma LineAppended(s: Tail, line: Line)
    requires Good(s) && line.event.Some?
    ensures
      var g := s.(log := s.log + [line], retry := 0);
      Good(g) && Cut(g.log, g.base) <= |s.log| && Page(g.log, g.base, |g.log|) != []
  {
    var g := s.(log := s.log + [line], retry := 0);
    assert Good(s.(retry := 0));
    GoodAppend(s.(retry := 0), line);
    CutStable(s.log, [line], s.base);
    LastEventCounts(g.log, Cut(g.log, g.base));
  }

  /** The two catch-ups an `online` during a page request puts in flight repeat an event. */
  lemma OnlineWhileFetchingRepeats(s: Tail, line: Line)
    requires Good(s) && !s.stopped && !s.ended && s.source.None? && s.pending != []
    requires line.event.Some?
    ensures
      var n := |s.log| + 1;
      var acts := [Append(line), PageOk(0, n), PageOk(0, n)];
      Run(OnOnline(s), acts) && !ExactlyOnce(Exec(OnOnline(s), acts))
  {
    var n := |s.log| + 1;
    var q := Request(s.base, |s.log|);
    var g := s.(log := s.log + [line], retry := 0);
    LineAppended(s, line);
    OnlineAddsRequest(s);
    SecondPageRepeats(g, q);
    assert s.pending[0] in s.pending;
    RunOfThree(OnOnline(s), Append(line), PageOk(0, n), PageOk(0, n));
  }

  /** `online` is safe when no page request is in flight, and only then: the guard in onOnline
      tests for an open stream and misses the request. */
  lemma OnlineSafeIff(s: Tail)
    requires Good(s) && !s.stopped && !s.ended && s.source.None?
    ensures s.pending == [] <==>
            forall acts :: Run(OnOnline(s), acts) ==> ExactlyOnce(Exec(OnOnline(s), acts))
  {
    if s.pending == [] {
      GoodStep(s, Online);
      forall acts | Run(OnOnline(s), acts)
        ensures ExactlyOnce(Exec(OnOnline(s), acts))
      {
        GoodRun(OnOnline(s), acts);
        PositionIsPrefix(Exec(OnOnline(s), acts));
      }
    } else {
      OnlineWhileFetchingRepeats(s, Line(0, Some(Event(""))));
    }
  }

  /** A tail that was stopped, or whose resource is gone, delivers nothing ever after. */
  lemma {:induction false} StoppedRun(s: Tail, acts: seq<Action>)
    requires Good(s) && s.stopped && Run(s, acts)
    ensures Exec(s, acts).stopped && Exec(s, acts).delivered == s.delivered
    decreases acts
  {
    if acts != [] {
      GoodStep(s, acts[0]);
      StoppedRun(Apply(s, acts[0]), acts[1..]);
    }
  }

  // ---------------------------------------------------------------------- when it stops, and that it goes on

  /** The view tears the tail down, or the resource answers 404. */
  predicate Halts(a: Action) {
    a.Stop? || (a.PageFail? && a.gone)
  }

  lemma HaltStep(s: Tail, a: Action)
    requires Enabled(s, a)
    ensures Apply(s, a).stopped <==> s.stopped || a.Stop? || (a.PageFail? && a.gone)
    ensures Apply(s, a).ended <==> a.End? || (s.ended && (s.stopped || !a.Resume?))
  {
  }

  /** A tail is stopped for good exactly by its view or by a 404: never by any other failure of a page,
      a drop or an end. */
  lemma {:induction false} StoppedIff(s: Tail, acts: seq<Action>)
    requires Run(s, acts) && !s.stopped
    ensures Exec(s, acts).stopped <==> exists a <- acts :: a.Stop? || (a.PageFail? && a.gone)
    decreases acts
  {
    if acts != [] {
      HaltStep(s, acts[0]);
      if Apply(s, acts[0]).stopped {
        assert acts[0] in acts && Halts(acts[0]);
        StaysStopped(Apply(s, acts[0]), acts[1..]);
      } else {
        StoppedIff(Apply(s, acts[0]), acts[1..]);
        assert forall a :: a in acts <==> a == acts[0] || a in acts[1..];
      }
    }
  }

  lemma {:induction false} StaysStopped(s: Tail, acts: seq<Action>)
    requires Run(s, acts) && s.stopped
    ensures Exec(s, acts).stopped
    decreases acts
  {
    if acts != [] {
      HaltStep(s, acts[0]);
      StaysStopped(Apply(s, acts[0]), acts[1..]);
    }
  }

  /** What needs nobody to write, tear down or fail: the page answers, the stream hands over, the backoff
      runs out. */
  predicate Onward(a: Action) {
    a.PageOk? || a.Deliver? || a.TimerFires?
  }

  /** From wherever any disciplined run without a halt has brought it, a tail that is not ended can still
      show the whole log, with no more than the answers it waits for. */
  lemma CatchesUp(log: seq<Line>, offset: nat, acts: seq<Action>) returns (more: seq<Action>)
    requires IsOffset(log, offset) && Run(Start(log, offset), acts)
    requires forall a <- acts :: !a.Stop? && !(a.PageFail? && a.gone)
    requires !Exec(Start(log, offset), acts).ended
    ensures
      var s := Exec(Start(log, offset), acts);
      && Run(s, more) && (forall a <- more :: Onward(a))
      && Exec(s, more).log == s.log && Exec(s, more).delivered == Wanted(s)
  {
    GoodStart(log, offset);
    GoodRun(Start(log, offset), acts);
    StoppedIff(Start(log, offset), acts);
    more := Rest(Exec(Start(log, offset), acts));
  }

  /** `online` does not wait for the backoff: the page is asked for at once, and the timer is gone. */
  lemma OnlineSkipsBackoff(s: Tail)
    requires Good(s) && !s.stopped && !s.ended && s.armed != {}
    ensures
      var t := Apply(s, Online);
      t.armed == {} && t.pending == [Request(s.base, |s.log|)] && t.delivered == s.delivered
  {
    TimerCleared(s);
  }

  /** A resource that ended and has more to say is shown to its end again. */
  lemma ResumeCatchesUp(s: Tail) returns (more: seq<Action>)
    requires Good(s) && !s.stopped && s.ended
    ensures
      var t := Apply(s, Resume);
      && !t.ended && t.pending == [Request(s.base, |s.log|)] && t.delivered == s.delivered
      && Run(t, more) && (forall a <- more :: Onward(a))
      && Exec(t, more).log == s.log && Exec(t, more).delivered == Wanted(s)
  {
    GoodStep(s, Resume);
    more := Rest(Apply(s, Resume));
  }

  lemma Rest(s: Tail) returns (acts: seq<Action>)
    requires Good(s) && !s.stopped && !s.ended
    ensures Run(s, acts) && (forall a <- acts :: Onward(a))
    ensures Exec(s, acts).log == s.log && Exec(s, acts).delivered == Wanted(s)
  {
    if s.source.Some? {
      acts := DrainStream(s);
    } else if s.pending != [] {
      acts := TakePage(s);
    } else {
      var t :| t in s.armed;
      var s1 := Apply(s, TimerFires(t));
      GoodStep(s, TimerFires(t));
      var rest := TakePage(s1);
      acts := [TimerFires(t)] + rest;
      assert acts[1..] == rest;
    }
  }

  lemma TakePage(s: Tail) returns (acts: seq<Action>)
    requires Good(s) && !s.stopped && |s.pending| == 1
    ensures Run(s, acts) && (forall a <- acts :: Onward(a))
    ensures Exec(s, acts).log == s.log && Exec(s, acts).delivered == Wanted(s)
  {
    assert s.pending[0] in s.pending;
    CaughtUp(s);
    acts := [PageOk(0, |s.log|)];
    assert acts[1..] == [] && Run(Apply(s, acts[0]), []);
  }

  /** Everything has been handed over when the stream has sent what lies behind the position. */
  lemma Drained(s: Tail)
    requires Position(s) && s.seen == |Events(s.log[Cut(s.log, s.base)..])|
    ensures s.delivered == Wanted(s)
  {
    var (o, b, n) := (Cut(s.log, s.offset), Cut(s.log, s.base), |s.log|);
    assert s.log[b..n] == s.log[b..] && s.log[o..n] == s.log[o..];
    EventsSplit(s.log, o, b, n);
  }

  lemma HandsOver(s: Tail) returns (a: Action, t: Tail)
    requires Good(s) && s.source.Some? && s.seen < |Events(s.log[Cut(s.log, s.base)..])|
    ensures a.Deliver? && Disciplined(s, a) && t == Apply(s, a) && Good(t)
    ensures t.source == s.source && t.log == s.log && t.base == s.base && t.offset == s.offset && t.seen == s.seen + 1
  {
    a := Deliver(s.source.value);
    t := Apply(s, a);
    GoodDeliver(s, s.source.value);
  }

  /** The stream hands over what is left of the log, one event after another. */
  lemma {:induction false} DrainStream(s: Tail) returns (acts: seq<Action>)
    requires Good(s) && s.source.Some?
    ensures Run(s, acts) && (forall a <- acts :: Onward(a))
    ensures Exec(s, acts).log == s.log && Exec(s, acts).delivered == Wanted(s)
    decreases |Events(s.log[Cut(s.log, s.base)..])| - s.seen
  {
    if s.seen == |Events(s.log[Cut(s.log, s.base)..])| {
      acts := [];
      Drained(s);
    } else {
      var a, t := HandsOver(s);
      var more := DrainStream(t);
      acts := [a] + more;
      assert acts[1..] == more;
    }
  }

  /** What a handler keeps of a good tail, if the world was disciplined. */
  predicate Keeps(s: Tail, a: Action, t: Tail) {
    Enabled(s, a) && t == Apply(s, a) && (Good(s) && Disciplined(s, a) ==> Good(t) && ExactlyOnce(t))
  }

  lemma StepKeeps(s: Tail, a: Action)
    requires Enabled(s, a)
    ensures Keeps(s, a, Apply(s, a))
  {
    if Good(s) && Disciplined(s, a) {
      GoodStep(s, a);
      PositionIsPrefix(Apply(s, a));
    }
  }
}

/** liveTail's closure as an object: its variables, and one method per handler. Each method is one
    turn of the browser's event loop, so no two of them interleave. */
module LiveTailClient {
  import opened Basics
  import T = LiveTail

  class Client {
    var base: nat
    var seen: nat
    var source: Option<nat>
    var timer: Option<nat>
    var retry: nat
    var stopped: bool
    var ended: bool

    // what the browser and the server hold for this tail
    var log: seq<T.Line>
    const offset: nat
    var streams: seq<T.Stream>
    var pending: seq<T.Request>
    var armed: set<nat>
    var timers: nat
    var delivered: seq<T.Event>

    function State(): T.Tail
      reads this
    {
      T.Tail(base, seen, source, timer, retry, stopped, ended,
             log, offset, streams, pending, armed, timers, delivered)
    }

    constructor (log: seq<T.Line>, offset: nat)
      ensures State() == T.Start(log, offset) && (T.IsOffset(log, offset) ==> T.Good(State()))
    {
      base, seen, source, timer, retry, stopped, ended := offset, 0, None, None, 0, false, false;
      this.log, this.offset, streams, pending, armed, timers, delivered :=
        log, offset, [], [], {}, 0, [];
      new;
      Kick();
      if T.IsOffset(log, offset) { T.GoodStart(log, offset); }
    }

    method Kick()
      modifies this
      ensures State() == T.Kick(old(State()))
    {
      if stopped || ended { return; }
      pending := pending + [T.Request(base, |log|)];
    }

    method CatchUp(events: seq<T.Event>, next: nat)
      modifies this
      ensures State() == T.CatchUp(old(State()), events, next)
    {
      if stopped { return; }
      var unseen := events[Min(seen, |events|)..];
      for i := 0 to |unseen|
        invariant State() == old(State()).(delivered := old(delivered) + unseen[..i])
      {
        delivered := delivered + [unseen[i]];
      }
      base := next;
      seen := 0;
    }

    method Open()
      modifies this
      ensures State() == T.Open(old(State()))
    {
      if stopped || ended { return; }
      source := Some(|streams|);
      streams := streams + [T.Stream(base, 0, true)];
    }

    method Close()
      modifies this
      ensures State() == T.Close(old(State()))
    {
      if source.Some? {
        streams := T.Kill(streams, source.value);
        source := None;
      }
    }

    method ClearTimer()
      modifies this
      ensures State() == T.ClearTimer(old(State()))
    {
      if timer.Some? { armed := armed - {timer.value}; }
    }

    method Reconnect()
      modifies this
      ensures State() == T.Reconnect(old(State()))
    {
      retry := retry + 1;
      timer := Some(timers);
      armed := armed + {timers};
      timers := timers + 1;
    }

    method OnPage(i: nat, m: nat)
      requires T.Enabled(State(), T.PageOk(i, m))
      modifies this
      ensures State() == T.OnPage(old(State()), i, m)
      ensures T.Keeps(old(State()), T.PageOk(i, m), State())
    {
      T.StepKeeps(State(), T.PageOk(i, m));
      var q := pending[i];
      pending := RemoveAt(pending, i);
      CatchUp(T.Page(log, q.from, m), T.Bytes(log[..m]));
      Open();
    }

    method OnPageError(i: nat, gone: bool)
      requires T.Enabled(State(), T.PageFail(i, gone))
      modifies this
      ensures State() == T.OnPageError(old(State()), i, gone)
      ensures T.Keeps(old(State()), T.PageFail(i, gone), State())
    {
      T.StepKeeps(State(), T.PageFail(i, gone));
      pending := RemoveAt(pending, i);
      if stopped { return; }
      if gone { stopped := true; return; }
      Reconnect();
    }

    method OnTranscript(id: nat)
      requires T.Enabled(State(), T.Deliver(id))
      modifies this
      ensures State() == T.OnTranscript(old(State()), id)
      ensures T.Keeps(old(State()), T.Deliver(id), State())
    {
      T.StepKeeps(State(), T.Deliver(id));
      var event := T.Undelivered(State(), id)[streams[id].sent];
      streams := streams[id := streams[id].(sent := streams[id].sent + 1)];
      retry := 0;
      seen := seen + 1;
      delivered := delivered + [event];
    }

    method OnEnd(id: nat)
      requires T.Enabled(State(), T.End(id))
      modifies this
      ensures State() == T.Apply(old(State()), T.End(id))
      ensures T.Keeps(old(State()), T.End(id), State())
    {
      T.StepKeeps(State(), T.End(id));
      ended := true;
      Close();
    }

    method OnError(id: nat)
      requires T.Enabled(State(), T.Drop(id))
      modifies this
      ensures State() == T.OnError(old(State()), id)
      ensures T.Keeps(old(State()), T.Drop(id), State())
    {
      T.StepKeeps(State(), T.Drop(id));
      streams := T.Kill(streams, id);
      if stopped || ended { return; }
      Close();
      Reconnect();
    }

    method OnTimer(t: nat)
      requires T.Enabled(State(), T.TimerFires(t))
      modifies this
      ensures State() == T.Apply(old(State()), T.TimerFires(t))
      ensures T.Keeps(old(State()), T.TimerFires(t), State())
    {
      T.StepKeeps(State(), T.TimerFires(t));
      armed := armed - {t};
      Kick();
    }

    method OnOnline()
      modifies this
      ensures State() == T.OnOnline(old(State()))
      ensures T.Keeps(old(State()), T.Online, State())
    {
      T.StepKeeps(State(), T.Online);
      if stopped || ended || source.Some? { return; }
      ClearTimer();
      retry := 0;
      Kick();
    }

    method Resume()
      modifies this
      ensures State() == T.OnResume(old(State()))
      ensures T.Keeps(old(State()), T.Resume, State())
    {
      T.StepKeeps(State(), T.Resume);
      if stopped || !ended { return; }
      ended := false;
      retry := 0;
      ClearTimer();
      Kick();
    }

    method Stop()
      modifies this
      ensures State() == T.Apply(old(State()), T.Stop)
      ensures T.Keeps(old(State()), T.Stop, State())
    {
      T.StepKeeps(State(), T.Stop);
      stopped := true;
      Close();
      ClearTimer();
    }
  }
}
