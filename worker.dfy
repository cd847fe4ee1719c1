/** The control states of the delivery worker (flushMetrics) and the events
    that move it between them. The labels CONNECT, STREAM, WAIT and QUIT of
    the jump-based loop become the phases below; every branch of its
    `select` statements becomes one event. */
module Worker {
  import opened Wrappers

  datatype Phase = Connect | Stream | Wait | Quit

  datatype Event =
    | Connected      // net.Dial succeeded
    | ConnectFailed  // net.Dial returned an error
    | Received       // a line was taken from the queue (and, in STREAM, written into the buffer)
    | WriteFailed    // a line was taken from the queue and writing it into the buffer failed
    | Closed         // the queue is closed and drained
    | Flushed        // the flush ticker fired and the flush succeeded
    | FlushFailed    // the flush ticker fired and the flush failed
    | WaitElapsed    // the five-second backoff timer fired

  /** The phase reached when `e` happens in phase `p`, or None when `p`
      cannot observe `e`. */
  function Next(p: Phase, e: Event): (r: Option<Phase>)
    ensures p == Quit ==> r == None
    ensures r == Some(Quit) <==> e == Closed && (p == Stream || p == Wait)
    ensures r == Some(Wait) <==>
              (p == Connect && e == ConnectFailed) ||
              (p == Stream && (e == WriteFailed || e == FlushFailed)) ||
              (p == Wait && e == Received)
    ensures r == Some(Connect) <==> p == Wait && e == WaitElapsed
    ensures r == Some(Stream) <==>
              (p == Connect && e == Connected) ||
              (p == Stream && (e == Received || e == Flushed))
    ensures e == Flushed && r.Some? ==> p == Stream
  {
    match (p, e)
    case (Connect, Connected) => Some(Stream)
    case (Connect, ConnectFailed) => Some(Wait)
    case (Stream, Received) => Some(Stream)
    case (Stream, WriteFailed) => Some(Wait)
    case (Stream, Closed) => Some(Quit)
    case (Stream, Flushed) => Some(Stream)
    case (Stream, FlushFailed) => Some(Wait)
    case (Wait, Received) => Some(Wait)
    case (Wait, Closed) => Some(Quit)
    case (Wait, WaitElapsed) => Some(Connect)
    case _ => None
  }

  /** The phase reached after the events `es`, or None if one of them
      cannot happen where it occurs. */
  function Run(p: Phase, es: seq<Event>): Option<Phase>
    decreases |es|
  {
    if es == [] then Some(p)
    else match Next(p, es[0])
      case None => None
      case Some(q) => Run(q, es[1..])
  }

  /** QUIT is terminal: no event moves the worker out of it. */
  lemma {:induction false} QuitIsTerminal(es: seq<Event>)
    ensures Run(Quit, es) == if es == [] then Some(Quit) else None
  {
  }

  /** Closing the queue is the only way into QUIT: a run that ends in QUIT
      from any other phase ends with the Closed event and contains no earlier one. */
  lemma {:induction false} OnlyClosureQuits(p: Phase, es: seq<Event>)
    requires p != Quit
    requires Run(p, es) == Some(Quit)
    ensures es != [] && es[|es| - 1] == Closed
    ensures Closed !in es[..|es| - 1]
    decreases |es|
  {
    var q := Next(p, es[0]).value;
    if q == Quit {
      QuitIsTerminal(es[1..]);
    } else {
      OnlyClosureQuits(q, es[1..]);
      assert es == [es[0]] + es[1..];
      assert es[..|es| - 1] == [es[0]] + es[1..][..|es[1..]| - 1];
    }
  }

  /** While the backoff has not elapsed the worker never flushes and stays in
      WAIT unless the queue is closed. */
  lemma {:induction false} WaitHoldsUntilElapsed(es: seq<Event>, q: Phase)
    requires WaitElapsed !in es
    requires Run(Wait, es) == Some(q)
    ensures Flushed !in es
    ensures q == Wait || q == Quit
    ensures q == Quit ==> es[|es| - 1] == Closed
    decreases |es|
  {
    if es != [] {
      var n := Next(Wait, es[0]).value;
      if n == Quit {
        QuitIsTerminal(es[1..]);
      } else {
        assert n == Wait;
        WaitHoldsUntilElapsed(es[1..], q);
        assert es == [es[0]] + es[1..];
      }
    }
  }

  /** A failed connect, write or flush leads to WAIT, and from WAIT the
      worker is back in STREAM once the backoff elapses and a reconnect succeeds. */
  lemma FailureThenRecovery(p: Phase, fail: Event)
    requires (p == Connect && fail == ConnectFailed) ||
             (p == Stream && (fail == WriteFailed || fail == FlushFailed))
    ensures Run(p, [fail]) == Some(Wait)
    ensures Run(p, [fail, WaitElapsed, Connected]) == Some(Stream)
  {
    assert [fail, WaitElapsed, Connected][1..] == [WaitElapsed, Connected];
    assert [WaitElapsed, Connected][1..] == [Connected];
  }
}
