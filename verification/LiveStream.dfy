/** One live stream over a WebSocket (liveStream in static/api.js): what the tail relies on when it
    treats an error as the one end of a stream it did not close itself. */
module LiveStream {
  /** Where the socket is, as the browser sees it: asking for a ticket, up, being closed, closed. */
  datatype Socket = Asking | Up | Closing | Gone

  /** `errors` and `frames` count the calls of onerror and of the other handlers. `armed` is the watchdog. */
  datatype Stream = Stream(socket: Socket, closed: bool, failed: bool, counted: bool, armed: bool,
                           errors: nat, frames: nat)

  /** The streams a page has opened, and its open-stream gauge. */
  datatype Page = Page(streams: seq<Stream>, gauge: int)

  datatype Event = Ticket | Refused | Opened | Frame(own: bool) | SocketClosed | Silent | Close

  const NEW := Stream(Asking, false, false, false, false, 0, 0)

  /** What the browser, the server and the caller can do next. No frame arrives on a socket that is
      being closed; a timer fires only while it is armed. */
  predicate Enabled(s: Stream, e: Event) {
    match e
    case Ticket => s.socket == Asking
    case Refused => s.socket == Asking
    case Opened => s.socket == Up
    case Frame(_) => s.socket == Up
    case SocketClosed => s.socket == Up || s.socket == Closing
    case Silent => s.armed
    case Close => true
  }

  function Hung(socket: Socket): Socket {
    if socket == Up then Closing else socket
  }

  function Released(s: Stream, gauge: int): (Stream, int) {
    if s.counted then (s.(counted := false), gauge - 1) else (s, gauge)
  }

  function Failed(s: Stream, gauge: int): (Stream, int) {
    if s.closed || s.failed then (s, gauge)
    else Released(s.(failed := true, armed := false, socket := Hung(s.socket), errors := s.errors + 1), gauge)
  }

  /** One callback, on the stream and the page's gauge. A frame of the stream's own (a ping, or one
      named like a handler of the stream) calls no handler. */
  function Do(s: Stream, gauge: int, e: Event): (Stream, int) {
    match e
    case Ticket =>
      if s.closed then (s.(socket := Gone), gauge)
      else (s.(socket := Up, counted := true, armed := true), gauge + 1)
    case Refused => Failed(s.(socket := Gone), gauge)
    case Opened => (s.(armed := true, frames := s.frames + 1), gauge)
    case Frame(own) => (s.(armed := true, frames := if own then s.frames else s.frames + 1), gauge)
    case SocketClosed => Failed(s.(socket := Gone), gauge)
    case Silent => Failed(s.(armed := false), gauge)
    case Close =>
      var (r, g) := Released(s.(closed := true, armed := false), gauge);
      (r.(socket := Hung(r.socket)), g)
  }

  datatype Step = Begin | On(i: nat, e: Event)

  predicate Possible(p: Page, a: Step) {
    a.On? ==> a.i < |p.streams| && Enabled(p.streams[a.i], a.e)
  }

  function Next(p: Page, a: Step): Page
    requires Possible(p, a)
  {
    match a
    case Begin => p.(streams := p.streams + [NEW])
    case On(i, e) =>
      var (s, gauge) := Do(p.streams[i], p.gauge, e);
      Page(p.streams[i := s], gauge)
  }

  predicate IsRun(p: Page, steps: seq<Step>)
    decreases steps
  {
    steps == [] || (Possible(p, steps[0]) && IsRun(Next(p, steps[0]), steps[1..]))
  }

  function Run(p: Page, steps: seq<Step>): Page
    requires IsRun(p, steps)
    decreases steps
  {
    if steps == [] then p else Run(Next(p, steps[0]), steps[1..])
  }

  // ---------------------------------------------------------------------- what holds throughout

  /** Neither closed by this side nor failed. */
  predicate Alive(s: Stream) {
    !s.closed && !s.failed
  }

  /** A stream that is alive is asking for its ticket, or has its socket up, counted and watched. One
      that is not has nothing armed, is counted no more, and reported an error exactly if it failed. */
  predicate Good(s: Stream) {
    && s.errors == (if s.failed then 1 else 0)
    && (Alive(s) ==> s.socket == Asking || s.socket == Up)
    && (s.socket == Up ==> Alive(s)) && (s.failed ==> s.socket != Asking)
    && (s.counted <==> s.socket == Up)
    && (s.armed <==> s.socket == Up)
  }

  function Counted(streams: seq<Stream>): nat {
    if streams == [] then 0
    else Counted(streams[..|streams| - 1]) + (if streams[|streams| - 1].socket == Up then 1 else 0)
  }

  predicate GoodPage(p: Page) {
    (forall i :: 0 <= i < |p.streams| ==> Good(p.streams[i])) && p.gauge == Counted(p.streams)
  }

  lemma {:induction false} CountedSet(streams: seq<Stream>, i: nat, s: Stream)
    requires i < |streams|
    ensures Counted(streams[i := s]) == Counted(streams) + (if s.socket == Up then 1 else 0)
                                        - (if streams[i].socket == Up then 1 else 0)
  {
    var n := |streams| - 1;
    if i < n {
      CountedSet(streams[..n], i, s);
      assert streams[i := s][..n] == streams[..n][i := s];
    } else {
      assert streams[i := s][..n] == streams[..n];
    }
  }

  /** A stream that has ended calls nothing any more; and each callback moves the gauge by exactly
      what it does to its own socket. */
  lemma GoodDo(s: Stream, gauge: int, e: Event)
    requires Good(s) && Enabled(s, e)
    ensures
      var (r, g) := Do(s, gauge, e);
      && Good(r)
      && g - gauge == (if r.socket == Up then 1 else 0) - (if s.socket == Up then 1 else 0)
      && (!Alive(s) ==> !Alive(r) && r.errors == s.errors && r.frames == s.frames)
      && (s.closed ==> r.closed) && (s.failed ==> r.failed)
  {
  }

  /** A stream fails exactly when, alive, it is refused its ticket, its socket closes or it falls silent, and
      is closed by its caller alone; and its other handlers are called for an opened socket and for
      each frame that is not its own. */
  lemma EndsIff(s: Stream, gauge: int, e: Event)
    requires Good(s) && Enabled(s, e)
    ensures
      var r := Do(s, gauge, e).0;
      && (r.failed <==> s.failed || (Alive(s) && (e.Refused? || e.SocketClosed? || e.Silent?)))
      && (r.closed <==> s.closed || e.Close?)
      && r.frames == s.frames + (if e.Opened? || e == Frame(false) then 1 else 0)
      && (e.Ticket? && Alive(s) ==> r.socket == Up && r.armed && r.counted)
      && (e.Frame? || e.Opened? ==> r.armed && r.socket == Up)
  {
  }

  lemma GoodNext(p: Page, a: Step)
    requires GoodPage(p) && Possible(p, a)
    ensures GoodPage(Next(p, a))
  {
    match a {
      case Begin => assert (p.streams + [NEW])[..|p.streams|] == p.streams;
      case On(i, e) =>
        var (s, gauge) := Do(p.streams[i], p.gauge, e);
        GoodDo(p.streams[i], p.gauge, e);
        GoodSet(p, i, s, gauge);
    }
  }

  lemma GoodSet(p: Page, i: nat, s: Stream, gauge: int)
    requires GoodPage(p) && i < |p.streams| && Good(s)
    requires gauge - p.gauge == (if s.socket == Up then 1 else 0) - (if p.streams[i].socket == Up then 1 else 0)
    ensures GoodPage(Page(p.streams[i := s], gauge))
  {
    CountedSet(p.streams, i, s);
  }

  lemma {:induction false} GoodRun(p: Page, steps: seq<Step>)
    requires GoodPage(p) && IsRun(p, steps)
    ensures GoodPage(Run(p, steps))
    decreases steps
  {
    if steps != [] {
      GoodNext(p, steps[0]);
      GoodRun(Next(p, steps[0]), steps[1..]);
    }
  }

  /** Over any run of any number of streams: the gauge is the number of sockets that are up, each
      stream reports at most one error, and a stream that is still alive and past its ticket is
      watched, so that silence ends it too. */
  lemma FailsOnce(steps: seq<Step>)
    requires IsRun(Page([], 0), steps)
    ensures
      var p := Run(Page([], 0), steps);
      && p.gauge == Counted(p.streams)
      && forall i :: 0 <= i < |p.streams| ==>
           var s := p.streams[i];
           && s.errors <= 1
           && (Alive(s) ==> s.errors == 0 && (s.socket == Asking || (s.socket == Up && s.armed)))
  {
    GoodRun(Page([], 0), steps);
  }

  /** Once a stream was closed or has failed, no run calls any of its handlers again. */
  lemma {:induction false} QuietAfterEnd(p: Page, steps: seq<Step>, i: nat)
    requires GoodPage(p) && IsRun(p, steps) && i < |p.streams| && !Alive(p.streams[i])
    ensures
      var r := Run(p, steps).streams;
      && i < |r| && !Alive(r[i])
      && r[i].errors == p.streams[i].errors && r[i].frames == p.streams[i].frames
    decreases steps
  {
    if steps != [] {
      var a := steps[0];
      GoodNext(p, a);
      if a.On? {
        GoodDo(p.streams[a.i], p.gauge, a.e);
      }
      QuietAfterEnd(Next(p, a), steps[1..], i);
    }
  }
}

/** The stream's closure and the module's gauge. */
module LiveStreamClient {
  import T = LiveStream

  class Gauge {
    var open: int

    constructor ()
      ensures open == 0
    {
      open := 0;
    }
  }

  class Stream {
    const gauge: Gauge
    var socket: T.Socket
    var closed: bool
    var failed: bool
    var counted: bool
    var armed: bool
    ghost var errors: nat
    ghost var frames: nat

    ghost function State(): (T.Stream, int)
      reads this, gauge
    {
      (T.Stream(socket, closed, failed, counted, armed, errors, frames), gauge.open)
    }

    /** A stream that is alive is watched and counted; one that has ended is neither. */
    ghost predicate Valid()
      reads this, gauge
    {
      T.Good(State().0)
    }

    /** What each callback keeps: the stream's invariant, and the silence of a stream that has ended. */
    static ghost predicate Kept(s: T.Stream, t: T.Stream) {
      T.Good(t) && (!T.Alive(s) ==> !T.Alive(t) && t.errors == s.errors && t.frames == s.frames)
    }

    constructor (gauge: Gauge)
      ensures Valid()
      ensures State() == (T.NEW, gauge.open) && this.gauge == gauge
    {
      this.gauge := gauge;
      socket, closed, failed, counted, armed := T.Asking, false, false, false, false;
      errors, frames := 0, 0;
    }

    method Release()
      modifies this`counted, gauge
      ensures State() == T.Released(old(State().0), old(State().1))
    {
      if counted {
        counted := false;
        gauge.open := gauge.open - 1;
      }
    }

    method Fail()
      modifies this, gauge
      ensures State() == T.Failed(old(State().0), old(State().1))
    {
      if closed || failed {
        return;
      }
      failed := true;
      armed := false;
      socket := T.Hung(socket);
      errors := errors + 1;
      Release();
    }

    method OnTicket()
      requires Valid() && T.Enabled(State().0, T.Ticket)
      modifies this, gauge
      ensures State() == T.Do(old(State().0), old(State().1), T.Ticket)
      ensures Valid() && Kept(old(State().0), State().0)
    {
      T.GoodDo(State().0, gauge.open, T.Ticket);
      if closed {
        socket := T.Gone;
        return;
      }
      socket := T.Up;
      counted := true;
      gauge.open := gauge.open + 1;
      armed := true;
    }

    method OnRefused()
      requires Valid() && T.Enabled(State().0, T.Refused)
      modifies this, gauge
      ensures State() == T.Do(old(State().0), old(State().1), T.Refused)
      ensures Valid() && Kept(old(State().0), State().0)
    {
      T.GoodDo(State().0, gauge.open, T.Refused);
      socket := T.Gone;
      Fail();
    }

    method OnOpen()
      requires Valid() && T.Enabled(State().0, T.Opened)
      modifies this
      ensures State() == T.Do(old(State().0), old(State().1), T.Opened)
      ensures Valid() && Kept(old(State().0), State().0)
    {
      T.GoodDo(State().0, gauge.open, T.Opened);
      armed := true;
      frames := frames + 1;
    }

    method OnMessage(own: bool)
      requires Valid() && T.Enabled(State().0, T.Frame(own))
      modifies this
      ensures State() == T.Do(old(State().0), old(State().1), T.Frame(own))
      ensures Valid() && Kept(old(State().0), State().0)
    {
      T.GoodDo(State().0, gauge.open, T.Frame(own));
      armed := true;
      if own {
        return;
      }
      frames := frames + 1;
    }

    method OnSocketClose()
      requires Valid() && T.Enabled(State().0, T.SocketClosed)
      modifies this, gauge
      ensures State() == T.Do(old(State().0), old(State().1), T.SocketClosed)
      ensures Valid() && Kept(old(State().0), State().0)
    {
      T.GoodDo(State().0, gauge.open, T.SocketClosed);
      socket := T.Gone;
      Fail();
    }

    method OnSilence()
      requires Valid() && T.Enabled(State().0, T.Silent)
      modifies this, gauge
      ensures State() == T.Do(old(State().0), old(State().1), T.Silent)
      ensures Valid() && Kept(old(State().0), State().0)
    {
      T.GoodDo(State().0, gauge.open, T.Silent);
      armed := false;
      Fail();
    }

    method Close()
      requires Valid() && T.Enabled(State().0, T.Event.Close)
      modifies this, gauge
      ensures State() == T.Do(old(State().0), old(State().1), T.Event.Close)
      ensures Valid() && Kept(old(State().0), State().0)
    {
      T.GoodDo(State().0, gauge.open, T.Event.Close);
      closed := true;
      armed := false;
      Release();
      socket := T.Hung(socket);
    }
  }
}
