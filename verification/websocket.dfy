/** The overlays' reconnecting WebSocket link (`useWebSocket.ts`) as a state
    machine. The browser's socket callbacks, the reconnect timer and the
    component's unmount are the events; every socket the hook opens is
    counted, and every frame handed to the overlay's handler is recorded with
    the handler that received it. */
module Link {
  import opened Wrappers
  import opened Shared

  const InitialDelay := 1000
  const MaxReconnectDelay := 30000

  /** The lifecycle of the most recently created socket. `Closing` means
      `close()` was called and its `onclose` has not fired yet. */
  datatype SocketState = Connecting | Open | Closing | Closed

  predicate Live(s: SocketState) {
    s == Connecting || s == Open
  }

  /** One call of the overlay's handler: which handler, with which frame. */
  datatype Delivery = Delivery(handler: nat, frame: Frame)

  datatype Link = Link(
    mounted: bool,           // the effect's `isMounted`
    handler: nat,            // the handler `useCallback(onEvent, [])` froze
    socket: SocketState,
    sockets: nat,            // sockets created so far
    delay: int,              // `reconnectDelay.current`, in ms
    timer: Option<int>,      // a pending reconnect and the wait it was set with
    connected: bool,         // `isConnected`
    delivered: seq<Delivery>)

  datatype LinkEvent =
    | SocketOpened                    // onopen
    | SocketErrored                   // onerror
    | SocketClosed                    // onclose
    | TimerFired                      // the reconnect timeout elapses
    | Received(data: Option<Frame>)   // onmessage; None: JSON.parse threw
    | Rerender(handler: nat)          // the component renders with a new onEvent
    | Unmount                         // the effect's cleanup

  /** The reachable shape of the link. */
  predicate Valid(l: Link) {
    && InitialDelay <= l.delay <= MaxReconnectDelay
    && (l.timer.Some? ==> l.mounted && l.socket == Closed && l.timer.value == l.delay)
    && (!l.mounted ==> l.timer.None?)
    && (l.connected ==> l.socket == Open || l.socket == Closing)
  }

  /** The first render: one socket is created, with the initial delay. */
  function Mount(handler: nat): (l: Link)
    ensures Valid(l)
    ensures l.mounted && l.socket == Connecting && l.sockets == 1 && !l.connected
    ensures l.delay == InitialDelay && l.handler == handler && l.delivered == []
  {
    Link(true, handler, Connecting, 1, InitialDelay, None, false, [])
  }

  /** The delay after a reconnect: doubled, capped at 30 s. */
  function NextDelay(d: int): (r: int)
    ensures r <= MaxReconnectDelay
    ensures r == 2 * d || (r == MaxReconnectDelay && 2 * d >= MaxReconnectDelay)
    ensures InitialDelay <= d ==> InitialDelay < r
  {
    if 2 * d < MaxReconnectDelay then 2 * d else MaxReconnectDelay
  }

  function Step(l: Link, e: LinkEvent): (r: Link)
    ensures Valid(l) ==> Valid(r)
    ensures r.handler == l.handler
    ensures |l.delivered| <= |r.delivered| && r.delivered[..|l.delivered|] == l.delivered
    ensures forall i :: |l.delivered| <= i < |r.delivered| ==> r.delivered[i].handler == l.handler
    ensures r.sockets == l.sockets || (r.sockets == l.sockets + 1 && l.mounted && e == TimerFired)
  {
    match e
    case SocketOpened =>
      if l.socket == Connecting then l.(socket := Open, connected := true, delay := InitialDelay)
      else l
    case SocketErrored =>
      // `ws.close()`: the close path follows when `onclose` fires
      if Live(l.socket) then l.(socket := Closing) else l
    case SocketClosed =>
      if l.socket == Closed then l
      else if !l.mounted then l.(socket := Closed, connected := false)
      else l.(socket := Closed, connected := false, timer := Some(l.delay))
    case TimerFired =>
      if l.timer.None? then l
      else if l.mounted then
        l.(timer := None, delay := NextDelay(l.delay), socket := Connecting, sockets := l.sockets + 1)
      else l.(timer := None, delay := NextDelay(l.delay))
    case Received(data) =>
      if l.socket == Open && data.Some? then
        l.(delivered := l.delivered + [Delivery(l.handler, data.value)])
      else l
    case Rerender(_) =>
      l
    case Unmount =>
      l.(mounted := false, timer := None, socket := if Live(l.socket) then Closing else l.socket)
  }

  function Run(l: Link, events: seq<LinkEvent>): (r: Link)
    ensures Valid(l) ==> Valid(r)
    decreases |events|
  {
    if events == [] then l else Run(Step(l, events[0]), events[1..])
  }

  /** A successful open marks the link connected and resets the delay. */
  lemma OpenResetsDelay(l: Link)
    requires l.socket == Connecting
    ensures Step(l, SocketOpened).connected && Step(l, SocketOpened).socket == Open
    ensures Step(l, SocketOpened).delay == InitialDelay
  {
  }

  /** A close while mounted schedules a reconnect after the current delay. */
  lemma CloseSchedulesReconnect(l: Link)
    requires Valid(l) && l.mounted && l.socket != Closed
    ensures Step(l, SocketClosed).timer == Some(l.delay)
    ensures !Step(l, SocketClosed).connected && Step(l, SocketClosed).sockets == l.sockets
  {
  }

  /** The timer doubles the delay (capped) and opens exactly one new socket. */
  lemma TimerReconnects(l: Link)
    requires Valid(l) && l.timer.Some?
    ensures var r := Step(l, TimerFired);
      && r.delay == NextDelay(l.delay) && r.socket == Connecting
      && r.sockets == l.sockets + 1 && r.timer.None?
  {
  }

  /** An error closes the socket, and its close takes the ordinary path. */
  lemma ErrorReconnectsThroughClose(l: Link)
    requires Live(l.socket)
    ensures Step(Step(l, SocketErrored), SocketClosed) == Step(l, SocketClosed)
  {
  }

  /** A frame that does not parse reaches no handler and changes nothing. */
  lemma MalformedFrameDropped(l: Link)
    ensures Step(l, Received(None)) == l
  {
  }

  /** An open socket hands every parsed frame to the frozen handler. */
  lemma FrameDelivered(l: Link, f: Frame)
    requires l.socket == Open
    ensures Step(l, Received(Some(f))).delivered == l.delivered + [Delivery(l.handler, f)]
  {
  }

  // --- Backoff -------------------------------------------------------------

  function Pow2(k: nat): (p: nat)
    ensures p >= 1
  {
    if k == 0 then 1 else 2 * Pow2(k - 1)
  }

  function Min(a: int, b: int): int {
    if a < b then a else b
  }

  /** The waits before each of n reconnects when no attempt ever opens. */
  function FailedAttempts(l: Link, n: nat): (waits: seq<int>)
    ensures |waits| == n
    decreases n
  {
    if n == 0 then []
    else
      var closed := Step(l, SocketClosed);
      [closed.timer.GetOr(0)] + FailedAttempts(Step(closed, TimerFired), n - 1)
  }

  lemma NextDelayCapped(d: int, k: nat)
    requires InitialDelay <= d <= MaxReconnectDelay
    ensures Min(NextDelay(d) * Pow2(k), MaxReconnectDelay) == Min(d * Pow2(k + 1), MaxReconnectDelay)
  {
    assert d * Pow2(k + 1) == (2 * d) * Pow2(k);
    if 2 * d >= MaxReconnectDelay {
      assert NextDelay(d) * Pow2(k) >= NextDelay(d);
      assert (2 * d) * Pow2(k) >= 2 * d;
    }
  }

  /** The k-th wait of an unbroken run of failures is the starting delay
      times 2^k, capped at 30 s. */
  lemma {:induction false} BackoffWaits(l: Link, n: nat)
    requires Valid(l) && l.mounted && l.socket == Connecting
    ensures forall k :: 0 <= k < n ==>
      FailedAttempts(l, n)[k] == Min(l.delay * Pow2(k), MaxReconnectDelay)
    decreases n
  {
    if n > 0 {
      var closed := Step(l, SocketClosed);
      CloseSchedulesReconnect(l);
      var next := Step(closed, TimerFired);
      TimerReconnects(closed);
      BackoffWaits(next, n - 1);
      var waits := FailedAttempts(l, n);
      assert waits == [l.delay] + FailedAttempts(next, n - 1);
      forall k | 0 <= k < n
        ensures waits[k] == Min(l.delay * Pow2(k), MaxReconnectDelay)
      {
        if k > 0 {
          NextDelayCapped(l.delay, k - 1);
        }
      }
    }
  }

  /** From the first render: 1 s, 2 s, 4 s, 8 s, 16 s, then 30 s for good. */
  lemma BackoffSchedule(h: nat)
    ensures FailedAttempts(Mount(h), 7) == [1000, 2000, 4000, 8000, 16000, 30000, 30000]
  {
    BackoffWaits(Mount(h), 7);
    assert Pow2(1) == 2 && Pow2(2) == 4 && Pow2(3) == 8 && Pow2(4) == 16;
    assert Pow2(5) == 32 && Pow2(6) == 64;
  }

  // --- Unmount and the frozen handler --------------------------------------

  /** After cleanup no reconnect is pending, none is ever scheduled again and
      no further socket is created, whatever the socket reports. */
  lemma {:induction false} UnmountSilences(l: Link, events: seq<LinkEvent>)
    ensures var r := Run(Step(l, Unmount), events);
      !r.mounted && r.timer.None? && r.sockets == l.sockets
    decreases |events|
  {
    QuietStaysQuiet(Step(l, Unmount), events);
  }

  lemma {:induction false} QuietStaysQuiet(l: Link, events: seq<LinkEvent>)
    requires !l.mounted && l.timer.None?
    ensures var r := Run(l, events); !r.mounted && r.timer.None? && r.sockets == l.sockets
    decreases |events|
  {
    if events != [] {
      QuietStaysQuiet(Step(l, events[0]), events[1..]);
    }
  }

  /** Cleanup twice is cleanup once. */
  lemma UnmountIdempotent(l: Link)
    ensures Step(Step(l, Unmount), Unmount) == Step(l, Unmount)
  {
  }

  /** Every frame the link ever delivers goes to the handler of the first
      render, however often the component renders with a new one. */
  lemma {:induction false} HandlerFrozen(l: Link, events: seq<LinkEvent>)
    ensures var r := Run(l, events);
      && r.handler == l.handler
      && |l.delivered| <= |r.delivered| && r.delivered[..|l.delivered|] == l.delivered
      && forall i :: |l.delivered| <= i < |r.delivered| ==> r.delivered[i].handler == l.handler
    decreases |events|
  {
    if events != [] {
      var s := Step(l, events[0]);
      HandlerFrozen(s, events[1..]);
      var r := Run(l, events);
      assert r == Run(s, events[1..]);
      assert r.delivered[..|l.delivered|] == r.delivered[..|s.delivered|][..|l.delivered|];
    }
  }

  lemma FirstHandlerReceivesAll(h: nat, events: seq<LinkEvent>)
    ensures forall d :: d in Run(Mount(h), events).delivered ==> d.handler == h
  {
    HandlerFrozen(Mount(h), events);
    var r := Run(Mount(h), events);
    forall d | d in r.delivered ensures d.handler == h {
      var i :| 0 <= i < |r.delivered| && r.delivered[i] == d;
    }
  }
}
