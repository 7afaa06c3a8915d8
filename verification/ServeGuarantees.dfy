/** What the teardown and sends around it guarantee, and the runs that show where they stop
    (xrpc/conn.go:176-211 and 539-559). */
module ServeGuarantees {
  import opened Packets
  import opened Serve
  import opened Handshake

  // ---------------------------------------------------------------- the teardown

  predicate IsCallback(e: Event) { e.ClosedCallback? }

  predicate IsSocketClose(e: Event) { e.SocketClosed? }

  function Count(trace: seq<Event>, p: Event -> bool): nat {
    if trace == [] then 0 else Count(trace[..|trace|-1], p) + if p(trace[|trace|-1]) then 1 else 0
  }

  lemma {:induction false} CountConcat(a: seq<Event>, b: seq<Event>, p: Event -> bool)
    ensures Count(a + b, p) == Count(a, p) + Count(b, p)
    decreases |b|
  {
    if b == [] {
      assert a + b == a;
    } else {
      var n := |b| - 1;
      assert (a + b)[..|a| + n] == a + b[..n];
      CountConcat(a, b[..n], p);
    }
  }

  lemma {:induction false} CountNone(a: seq<Event>, p: Event -> bool)
    requires forall i | 0 <= i < |a| :: !p(a[i])
    ensures Count(a, p) == 0
    decreases |a|
  {
    if a != [] { CountNone(a[..|a|-1], p); }
  }

  lemma CountOne(e: Event, p: Event -> bool)
    ensures Count([e], p) == if p(e) then 1 else 0
  {
    assert [e][..0] == [];
  }

  /** The parts of a farewell, counted one by one. */
  lemma CountFarewell(exit: Exit, p: Event -> bool)
    requires !p(StreamsCleaned) && !p(Deactivated) && !p(ContextCancelled) && !p(QueueClosed)
    ensures Count(Farewell(exit), p) == Count(Before(exit), p) + Count(Callback(exit), p) + Count(SocketAtEnd(exit), p)
  {
    var middle, last := [StreamsCleaned, Deactivated], [ContextCancelled, QueueClosed];
    CountNone(middle, p);
    CountNone(last, p);
    CountConcat(Before(exit) + Callback(exit) + middle + SocketAtEnd(exit), last, p);
    CountConcat(Before(exit) + Callback(exit) + middle, SocketAtEnd(exit), p);
    CountConcat(Before(exit) + Callback(exit), middle, p);
    CountConcat(Before(exit), Callback(exit), p);
    hide Count, Before, Callback, SocketAtEnd;
  }

  lemma FarewellCallbacks(exit: Exit)
    ensures Count(Farewell(exit), IsCallback) == if exit.ReaderFailed? then 1 else 0
  {
    CountFarewell(exit, IsCallback);
    CountNone(Before(exit), IsCallback);
    CountNone(SocketAtEnd(exit), IsCallback);
    if exit.ReaderFailed? { CountOne(ClosedCallback(ReturnedError(exit.error)), IsCallback); }
    hide Farewell;
  }

  /** How often the socket is closed. */
  function SocketCloses(exit: Exit): nat {
    match exit
    case HelloFailed(e) => 2 + |Refusal(e)|
    case OpenFailed => 2
    case ReaderFailed(e) => 1 + |Refusal(e)|
  }

  lemma RefusalCloses(e: ReadError)
    ensures Count(Refusal(e), IsSocketClose) == |Refusal(e)|
  {
    CountOne(SocketClosed(ProtocolError), IsSocketClose);
    CountOne(SocketClosed(BadFrame), IsSocketClose);
  }

  lemma BeforeCloses(exit: Exit)
    requires !exit.OpenFailed?
    ensures Count(Before(exit), IsSocketClose) ==
            |Refusal(exit.error)| + if exit.HelloFailed? || exit.error.Cancelled? then 1 else 0
  {
    RefusalCloses(exit.error);
    CountOne(SocketClosed(InternalError), IsSocketClose);
    CountOne(SocketClosed(GoingAway), IsSocketClose);
    CountConcat(Refusal(exit.error), [SocketClosed(InternalError)], IsSocketClose);
    CountConcat(Refusal(exit.error), [SocketClosed(GoingAway)], IsSocketClose);
    CountConcat(Refusal(exit.error), [], IsSocketClose);
    hide Refusal, Count;
    CountNone([], IsSocketClose);
  }

  lemma FarewellSocketCloses(exit: Exit)
    ensures Count(Farewell(exit), IsSocketClose) == SocketCloses(exit)
  {
    CountFarewell(exit, IsSocketClose);
    CountNone(Callback(exit), IsSocketClose);
    CountOne(SocketClosed(NormalClosure), IsSocketClose);
    CountOne(SocketClosed(AbnormalClosure), IsSocketClose);
    if exit.OpenFailed? { CountOne(SocketClosed(InternalError), IsSocketClose); } else { BeforeCloses(exit); }
    CountNone([], IsSocketClose);
    hide Farewell, Refusal, Count;
  }

  /** The order of what is seen when serve ends by `exit`. */
  ghost predicate Ordered(trace: seq<Event>, exit: Exit) {
    && (forall i | 0 <= i < |trace| && trace[i].ClosedCallback? ::
          && exit.ReaderFailed?
          && trace[i].error == (if exit.error in {Cancelled, NormalClose} then None else Some(exit.error))
          && i + 2 < |trace| && trace[i + 1].StreamsCleaned? && trace[i + 2].Deactivated?)
    && StreamsCleaned in trace
    && (forall i, j | 0 <= i < j < |trace| :: trace[i].StreamsCleaned? ==> !trace[j].ClosedCallback?)
    && |trace| >= 2 && trace[|trace|-2] == ContextCancelled && trace[|trace|-1] == QueueClosed
    && (forall i | 0 <= i < |trace| - 1 :: !trace[i].QueueClosed?)
  }

  lemma FarewellIsOrdered(exit: Exit)
    ensures Ordered(Farewell(exit), exit)
  {
    hide Ordered;
    if exit.ReaderFailed? { ReaderFarewellIsOrdered(exit); } else { EarlyFarewellIsOrdered(exit); }
  }

  /** Before and after the deferred calls that matter here, serve only closes the socket. */
  lemma OnlyCloses(exit: Exit)
    ensures |Before(exit)| <= 2 && forall i | 0 <= i < |Before(exit)| :: Before(exit)[i].SocketClosed?
    ensures |SocketAtEnd(exit)| <= 1 && forall i | 0 <= i < |SocketAtEnd(exit)| :: SocketAtEnd(exit)[i].SocketClosed?
  {
  }

  lemma ReaderFarewellIsOrdered(exit: Exit)
    requires exit.ReaderFailed?
    ensures Ordered(Farewell(exit), exit)
  {
    OnlyCloses(exit);
    var n, trace := |Before(exit)|, Farewell(exit);
    hide Before, SocketAtEnd, Refusal;
    assert trace[n].ClosedCallback? && trace[n + 1] == StreamsCleaned;
  }

  lemma EarlyFarewellIsOrdered(exit: Exit)
    requires !exit.ReaderFailed?
    ensures Ordered(Farewell(exit), exit)
  {
    OnlyCloses(exit);
    var n, trace := |Before(exit)|, Farewell(exit);
    hide Before, SocketAtEnd, Refusal;
    assert trace[n] == StreamsCleaned;
  }

  /** When serve has returned, by whatever exit: the closed callback has run exactly once if the
      connection was opened and not at all otherwise; it ran before the streams were cleaned,
      while the connection was still active, with the error serve returns; and the write queue
      was closed last, right after the context was cancelled. */
  lemma TeardownOrder(together: bool, s: Pair, x: End)
    requires Reachable(together, s) && Exited(s.Of(x).life)
    ensures var c := s.Of(x).life;
            Count(c.trace, IsCallback) == (if c.initialized then 1 else 0) && Ordered(c.trace, c.phase.exit)
  {
    LineFacts(together, s, x);
    hide Reachable, LineOk, StageOk, SendsOk, Count, Ordered;
    FarewellCallbacks(s.Of(x).life.phase.exit);
    FarewellIsOrdered(s.Of(x).life.phase.exit);
  }

  /** When serve has returned, the socket was closed exactly once if and only if the connection had
      opened and the reader did not end with a malformed frame, on which wspb.Read closes it before
      serve does: then it was closed twice. Unless the connection had opened it was closed twice,
      and three times if the reader got a malformed frame or an invalid hello. */
  lemma SocketCloseCount(together: bool, s: Pair, x: End)
    requires Reachable(together, s) && Exited(s.Of(x).life)
    ensures var c := s.Of(x).life; var n := Count(c.trace, IsSocketClose);
            && (n == 1 <==> c.initialized && c.phase.exit != ReaderFailed(Malformed))
            && (n == 3 <==> c.phase.exit == HelloFailed(Malformed) || c.phase.exit == HelloFailed(InvalidHello))
            && 1 <= n <= 3
  {
    LineFacts(together, s, x);
    NoDuplicateAt(together, s, x);
    hide Reachable, LineOk, StageOk, SendsOk, Count;
    FarewellSocketCloses(s.Of(x).life.phase.exit);
  }

  lemma NoDuplicateAt(together: bool, s: Pair, x: End)
    requires Reachable(together, s)
    ensures !ReportsDuplicate(s.Of(x).life)
  {
    hide Reachable, Leads, ReportsDuplicate;
    HelloErrorBoundary(together, s, x);
  }

  // ---------------------------------------------------------------- what is seen, by what ended serve

  /** Serve gave up before the connection opened, after closing the socket with these. */
  function NeverOpenedTrace(closes: seq<Event>): seq<Event> {
    closes + [StreamsCleaned, Deactivated, SocketClosed(AbnormalClosure), ContextCancelled, QueueClosed]
  }

  /** What the reader of an open connection ends with, and all that is seen from then on: the closes of
      the socket, the error the closed callback gets, and the rest of the teardown. */
  predicate SeenAfter(e: ReadError, trace: seq<Event>) {
    match e
    case Cancelled =>
      trace == [SocketClosed(GoingAway), ClosedCallback(None), StreamsCleaned, Deactivated, ContextCancelled,
                QueueClosed]
    case NormalClose =>
      trace == [ClosedCallback(None), StreamsCleaned, Deactivated, SocketClosed(NormalClosure), ContextCancelled,
                QueueClosed]
    case Malformed =>
      trace == [SocketClosed(BadFrame), ClosedCallback(Some(Malformed)), StreamsCleaned, Deactivated,
                SocketClosed(AbnormalClosure), ContextCancelled, QueueClosed]
    case _ =>
      trace == [ClosedCallback(Some(e)), StreamsCleaned, Deactivated, SocketClosed(AbnormalClosure), ContextCancelled,
                QueueClosed]
  }

  lemma ReaderFarewellIsSeen(e: ReadError)
    requires !e.InvalidHello?
    ensures SeenAfter(e, Farewell(ReaderFailed(e)))
  {
  }

  lemma EarlyFarewellIsSeen(e: ReadError)
    ensures Farewell(OpenFailed) == NeverOpenedTrace([SocketClosed(InternalError)])
    ensures Farewell(HelloFailed(e)) ==
            NeverOpenedTrace(match e
                             case InvalidHello => [SocketClosed(ProtocolError), SocketClosed(InternalError)]
                             case Malformed => [SocketClosed(BadFrame), SocketClosed(InternalError)]
                             case _ => [SocketClosed(InternalError)])
  {
  }

  lemma StaysOnItsWayOut(together: bool, c: Conn, peer: Conn, step: Step)
    requires c.life.phase.Unwinding? && Can(c, peer, step)
    ensures Do(together, c, peer, step).life.phase == c.life.phase
  {
    hide DoUnwind, DoLine, CanLine, Accept, CanSend;
    if step == InLife(Unwind) { UnwindShape(c.life); }
  }

  /** How serve ends is settled when it starts to unwind. */
  lemma {:induction false} EndIsSettled(together: bool, s: Pair, x: End, moves: seq<Move>)
    requires s.Of(x).life.phase.Unwinding? && RunAll(together, s, moves).Some?
    ensures RunAll(together, s, moves).value.Of(x).life.phase == s.Of(x).life.phase
    decreases |moves|
  {
    hide Can, Do;
    if moves != [] {
      var m := moves[0];
      if m.x == x { StaysOnItsWayOut(together, s.Of(x), s.Of(PeerOf(x)), m.step); }
      EndIsSettled(together, s.With(m.x, Do(together, s.Of(m.x), s.Of(PeerOf(m.x)), m.step)), x, moves[1..]);
    }
  }

  function After(together: bool, s: Pair, x: End, step: LifeStep): Pair
    requires Can(s.Of(x), s.Of(PeerOf(x)), InLife(step))
  {
    s.With(x, Do(together, s.Of(x), s.Of(PeerOf(x)), InLife(step)))
  }

  /** When serve has returned, what was seen is the farewell of the end it came to. */
  lemma FarewellOf(together: bool, s: Pair, x: End, step: LifeStep, t: Pair)
    requires Reachable(together, s) && Can(s.Of(x), s.Of(PeerOf(x)), InLife(step))
    requires After(together, s, x, step).Of(x).life.phase.Unwinding?
    requires Leads(together, false, After(together, s, x, step), t) && Exited(t.Of(x).life)
    ensures t.Of(x).life.trace == Farewell(After(together, s, x, step).Of(x).life.phase.exit)
  {
    hide Can, Do, Farewell;
    var u := Next(together, s, x, InLife(step));
    var moves :| RunAll(together, u, moves) == Some(t);
    EndIsSettled(together, u, x, moves);
    LeadsReaches(together, u, t);
    LineFacts(together, t, x);
    hide Reachable, Leads, LineOk, StageOk, SendsOk, ReadOk, RunAll;
  }

  lemma LeadsReaches(together: bool, s: Pair, t: Pair)
    requires Reachable(together, s) && Leads(together, false, s, t)
    ensures Reachable(together, t)
  {
    var before :| RunAll(together, START, before) == Some(s);
    var moves :| RunAll(together, s, moves) == Some(t);
    RunsJoin(together, START, before, moves);
  }

  lemma {:induction false} RunsJoin(together: bool, s: Pair, a: seq<Move>, b: seq<Move>)
    requires RunAll(together, s, a).Some?
    ensures RunAll(together, s, a + b) == RunAll(together, RunAll(together, s, a).value, b)
    decreases |a|
  {
    hide Can, Do;
    if a == [] {
      assert a + b == b;
    } else {
      var m := a[0];
      assert (a + b)[1..] == a[1..] + b;
      RunsJoin(together, s.With(m.x, Do(together, s.Of(m.x), s.Of(PeerOf(m.x)), m.step)), a[1..], b);
    }
  }

  /** From the reader's error to what everybody sees. Let reading fail on an open connection, by whatever
      error. In every continuation in which serve has returned, exactly this was seen: after a
      cancellation or a normal close the closed callback got no error, after anything else the
      reader's error. */
  lemma ReaderEndIsReported(together: bool, s: Pair, x: End, e: ReadError, t: Pair)
    requires Reachable(together, s) && Can(s.Of(x), s.Of(PeerOf(x)), InLife(ReadFails(e)))
    requires s.Of(x).life.phase.Reading?
    requires Leads(together, false, After(together, s, x, ReadFails(e)), t) && Exited(t.Of(x).life)
    ensures SeenAfter(e, t.Of(x).life.trace)
  {
    hide Reachable, Leads, Before, Farewell, SeenAfter;
    FarewellOf(together, s, x, ReadFails(e), t);
    ReaderFarewellIsSeen(e);
  }

  /** Let reading fail before the hello has come, or the first frame be no hello, or onConnOpen fail. In
      every continuation in which serve has returned, exactly this was seen: no closed callback, and
      the socket closed with an internal error before the teardown. */
  lemma EarlyEndIsReported(together: bool, s: Pair, x: End, step: LifeStep, t: Pair)
    requires Reachable(together, s) && Can(s.Of(x), s.Of(PeerOf(x)), InLife(step)) && !s.Of(x).life.initialized
    requires match step
             case ReadFails(_) => true
             case ReadOne => s.Of(PeerOf(x)).line.wire[0].Other?
             case OpenFails => true
             case _ => false
    requires Leads(together, false, After(together, s, x, step), t) && Exited(t.Of(x).life)
    ensures t.Of(x).life.trace ==
            NeverOpenedTrace(if step.ReadOne? then [SocketClosed(ProtocolError), SocketClosed(InternalError)]
                             else if step == ReadFails(Malformed) then [SocketClosed(BadFrame),
                                                                        SocketClosed(InternalError)]
                             else [SocketClosed(InternalError)])
  {
    LineFacts(together, s, x);
    hide Reachable, Leads, Before, Farewell, NeverOpenedTrace, LineOk, StageOk, SendsOk, TraceOk;
    FarewellOf(together, s, x, step, t);
    EarlyFarewellIsSeen(if step.ReadOne? then InvalidHello else if step.ReadFails? then step.error else Failed);
  }

  /** The last time serve or its reader closed the socket it was with this status. */
  ghost predicate LastClosed(trace: seq<Event>, status: Status) {
    exists i :: 0 <= i < |trace| && trace[i] == SocketClosed(status) && forall j | i < j < |trace| ::
      !trace[j].SocketClosed?
  }

  lemma LastClosedIs(trace: seq<Event>, i: nat)
    requires i < |trace| && trace[i].SocketClosed? && forall j | i < j < |trace| :: !trace[j].SocketClosed?
    ensures forall status :: LastClosed(trace, status) <==> status == trace[i].status
  {
    assert LastClosed(trace, trace[i].status);
  }

  lemma SeenErrors(e: ReadError, trace: seq<Event>)
    requires SeenAfter(e, trace)
    ensures forall error | ClosedCallback(error) in trace ::
              && (error.None? <==> LastClosed(trace, NormalClosure) || LastClosed(trace, GoingAway))
              && (error.Some? ==> error.value == e && LastClosed(trace, AbnormalClosure))
  {
    hide LastClosed;
    match e
    case Cancelled => LastClosedIs(trace, 0);
    case NormalClose => LastClosedIs(trace, 3);
    case Malformed => LastClosedIs(trace, 4);
    case _ => LastClosedIs(trace, 3);
  }

  /** When serve has returned, the closed callback's error is missing if and only if the socket was last
      closed with a normal closure or as going away. Otherwise it is the reader's error, and the
      last close was abnormal. */
  lemma CallbackErrorMeans(together: bool, s: Pair, x: End, error: Option<ReadError>)
    requires Reachable(together, s) && Exited(s.Of(x).life) && ClosedCallback(error) in s.Of(x).life.trace
    ensures var c := s.Of(x).life;
            && (error.None? <==> LastClosed(c.trace, NormalClosure) || LastClosed(c.trace, GoingAway))
            && (error.Some? ==> c.phase.exit == ReaderFailed(error.value) && LastClosed(c.trace, AbnormalClosure))
  {
    LineFacts(together, s, x);
    hide Reachable, LineOk, StageOk, SendsOk, Before, LastClosed, SeenAfter, Farewell;
    var exit := s.Of(x).life.phase.exit;
    if exit.ReaderFailed? {
      ReaderFarewellIsSeen(exit.error);
      SeenErrors(exit.error, s.Of(x).life.trace);
    } else {
      NoCallback(exit);
    }
  }

  lemma NoCallback(exit: Exit)
    requires !exit.ReaderFailed?
    ensures forall error :: ClosedCallback(error) !in Farewell(exit)
  {
    EarlyFarewellIsSeen(if exit.HelloFailed? then exit.error else Failed);
    hide Farewell;
  }

  // ---------------------------------------------------------------- sends after the end

  /** This send can end so: writeWsMessage returns nil, and no goroutine has the packet. */
  ghost predicate CanLose(together: bool, c: Conn, peer: Conn, how: Sent) {
    Can(c, peer, Send(how)) && ReportsSuccess(how) && Do(together, c, peer, Send(how)).line == c.line
  }

  /** A send can report success without handing its packet over if and only if the connection was
      initialized and the queue is closed, that is, when serve has returned from a connection that
      was open. Then no send hands anything over any more; it may still see the context done
      instead, unless onConnOpen put an unrelated context in place that is alive. */
  lemma SuccessWithoutHandOver(together: bool, s: Pair, x: End)
    requires Reachable(together, s)
    ensures var c, peer := s.Of(x), s.Of(PeerOf(x));
            && ((exists how :: CanLose(together, c, peer, how)) <==> c.life.initialized && c.life.queueClosed)
            && (c.life.initialized && c.life.queueClosed <==> Exited(c.life) && c.life.phase.exit.ReaderFailed?)
            && (Exited(c.life) && c.life.phase.exit.ReaderFailed? ==>
                  && c.life.cancelled && ContextCancelled in c.life.trace
                  && (forall how | Can(c, peer, Send(how)) && ReportsSuccess(how) :: CanLose(together, c, peer, how))
                  && (!c.life.detached ==> Can(c, peer, Send(SeesDone)))
                  && (Can(c, peer, Send(SeesDone)) <==> c.life.ctxDone))
  {
    LineFacts(together, s, x);
    hide Reachable, LineOk, StageOk, SendsOk, Before, Callback, SocketAtEnd;
    var c, peer := s.Of(x), s.Of(PeerOf(x));
    if c.life.initialized && c.life.queueClosed { assert CanLose(together, c, peer, Recovers); }
    if Exited(c.life) { assert c.life.trace[|c.life.trace|-2] == ContextCancelled; }
  }

  /** A send finds the queue closed only after serve has cancelled its context; unless onConnOpen
      put an unrelated context in place, the sender's own context is done as well. */
  lemma RecoveredOnlyAfterCancel(together: bool, s: Pair, x: End)
    requires Reachable(together, s) && Can(s.Of(x), s.Of(PeerOf(x)), Send(Recovers))
    ensures var c := s.Of(x).life;
            c.cancelled && Exited(c) && ContextCancelled in c.trace && (!c.detached ==> c.ctxDone)
  {
    hide Reachable;
    SuccessWithoutHandOver(together, s, x);
  }

  function Successes(sends: seq<Sent>): nat {
    if sends == [] then 0 else Successes(sends[..|sends|-1]) + if ReportsSuccess(sends[|sends|-1]) then 1 else 0
  }

  function Lost(sends: seq<Sent>): nat {
    if sends == [] then 0 else Lost(sends[..|sends|-1]) + if sends[|sends|-1].Recovers? then 1 else 0
  }

  lemma {:induction false} SuccessesSplit(sends: seq<Sent>)
    ensures Successes(sends) == HandedOver(sends) + Lost(sends)
    ensures Lost(sends) > 0 ==> Recovers in sends
  {
    if sends != [] { SuccessesSplit(sends[..|sends|-1]); }
  }

  /** As long as the socket is whole, the sends that reported success are exactly the packets on the
      wire and in a goroutine's hand. Always, those packets and the recovered sends, which there are
      only once serve has returned, are different ones of them. */
  lemma SuccessesAreAccountedFor(together: bool, s: Pair, x: End)
    requires Reachable(together, s)
    ensures var c := s.Of(x);
            && OthersIn(c.line.wire) + Held(c.line) + Lost(c.sends) <= Successes(c.sends)
            && (!c.line.broken ==> Successes(c.sends) == OthersIn(c.line.wire) + Held(c.line))
            && (Lost(c.sends) > 0 ==> Exited(c.life) && c.line.broken)
  {
    LineFacts(together, s, x);
    SuccessesSplit(s.Of(x).sends);
    if Exited(s.Of(x).life) { ClosedAtExit(together, s, x); }
    hide Reachable, LineOk, StageOk, Successes, HandedOver, Lost, OthersIn, Held, ClosedSocket;
  }

  /** When serve has returned the socket is closed. */
  lemma ClosedAtExit(together: bool, s: Pair, x: End)
    requires Reachable(together, s) && Exited(s.Of(x).life)
    ensures s.Of(x).line.broken
  {
    ReachableOk(together, s, x);
    hide Reachable, LineOk, StageOk, SendsOk, ReadOk;
    FarewellSocketCloses(s.Of(x).life.phase.exit);
    hide Farewell;
    if !ClosedSocket(s.Of(x).life.trace) { CountNone(s.Of(x).life.trace, IsSocketClose); }
  }

  /** The packets that the two goroutines around the queue can still take when writing fails. */
  function StillTakes(l: Line): nat {
    (if l.hello.Ready? then 1 else 0) + (if l.writer.NotStarted? || l.writer.Ready? then 1 else 0)
  }

  lemma BrokenStep(together: bool, c: Conn, peer: Conn, step: Step)
    requires c.line.broken && StageOk(c.life, c.line) && OpenOk(c.life) && Can(c, peer, step)
    ensures var c' := Do(together, c, peer, step);
            && c'.line.broken && c'.line.wire == c.line.wire
            && HandedOver(c'.sends) + StillTakes(c'.line) <= HandedOver(c.sends) + StillTakes(c.line)
  {
    hide HandedOver, DoLife, CanLife, ClosedSocket, DoLine, Accept, CanLine, StillTakes;
    match step
    case OnLine(o) => BrokenLine(c.life, c.line, o);
    case Send(how) => BrokenSend(c.life, c.line, c.sends, how);
    case InLife(_) => SameLine(c.line, Do(together, c, peer, step).line);
    case _ => BrokenOpening(together, c, peer, step);
  }

  lemma BrokenLine(c: Life, l: Line, step: LineStep)
    requires l.broken && CanLine(c, l, step)
    ensures var l' := DoLine(l, step); l'.broken && l'.wire == l.wire && StillTakes(l') <= StillTakes(l)
  {
  }

  lemma BrokenSend(c: Life, l: Line, sends: seq<Sent>, how: Sent)
    requires l.broken && CanSend(c, l, how)
    ensures var l' := Accept(l, how);
            && l'.broken && l'.wire == l.wire
            && HandedOver(sends + [how]) + StillTakes(l') <= HandedOver(sends) + StillTakes(l)
  {
    assert (sends + [how])[..|sends|] == sends;
  }

  lemma SameLine(l: Line, l': Line)
    requires l'.hello == l.hello && l'.writer == l.writer
    ensures StillTakes(l') == StillTakes(l)
  {
  }

  lemma BrokenOpening(together: bool, c: Conn, peer: Conn, step: Step)
    requires c.line.broken && StageOk(c.life, c.line) && OpenOk(c.life) && Can(c, peer, step)
    requires !step.OnLine? && !step.InLife? && !step.Send?
    ensures var c' := Do(together, c, peer, step);
            c'.line.broken && c'.line.wire == c.line.wire && StillTakes(c'.line) <= StillTakes(c.line)
            && c'.sends == c.sends
  {
  }

  lemma {:induction false} BrokenRun(together: bool, s: Pair, x: End, moves: seq<Move>)
    requires PairOk(together, s.a, s.b) && s.Of(x).line.broken && RunAll(together, s, moves).Some?
    ensures var c, c' := s.Of(x), RunAll(together, s, moves).value.Of(x);
            && c'.line.broken && c'.line.wire == c.line.wire
            && HandedOver(c'.sends) + StillTakes(c'.line) <= HandedOver(c.sends) + StillTakes(c.line)
    decreases |moves|
  {
    hide Do, Can, HandedOver, LineOk, StageOk, DefersOk, OpenOk, TraceOk, SendsOk, ReadOk, ClosedSocket, StillTakes;
    if moves != [] {
      var m := moves[0];
      if m.x == x { BrokenStep(together, s.Of(x), s.Of(PeerOf(x)), m.step); }
      StepKeepsPair(together, s.Of(m.x), s.Of(PeerOf(m.x)), m.step);
      BrokenRun(together, s.With(m.x, Do(together, s.Of(m.x), s.Of(PeerOf(m.x)), m.step)), x, moves[1..]);
    }
  }

  /** A broken socket swallows little: from the moment it breaks nothing more is written, and in every
      continuation each of the two goroutines takes at most one packet more, because each stops at its
      first failed write. */
  lemma BrokenSwallowsFew(together: bool, s: Pair, x: End, moves: seq<Move>)
    requires Reachable(together, s) && s.Of(x).line.broken && RunAll(together, s, moves).Some?
    ensures var c, c' := s.Of(x), RunAll(together, s, moves).value.Of(x);
            && c'.line.broken && c'.line.wire == c.line.wire
            && HandedOver(c'.sends) + StillTakes(c'.line) <= HandedOver(c.sends) + StillTakes(c.line)
            && HandedOver(c'.sends) <= HandedOver(c.sends) + 2
  {
    ReachableOk(together, s, A);
    hide Reachable, PairOk, RunAll, HandedOver;
    BrokenRun(together, s, x, moves);
  }

  predicate StoppedForCause(c: Conn) {
    c.line.writer.Stopped? ==> c.life.ctxDone || c.life.queueClosed || c.line.broken
  }

  lemma LifeEndsOn(c: Life, wire: seq<Frame>, step: LifeStep)
    requires CanLife(c, wire, step)
    ensures (c.ctxDone ==> DoLife(c, wire, step).ctxDone) && (c.queueClosed ==> DoLife(c, wire, step).queueClosed)
  {
    hide Before, Shows;
  }

  lemma StopsForCause(together: bool, c: Conn, peer: Conn, step: Step)
    requires StoppedForCause(c) && Can(c, peer, step)
    ensures StoppedForCause(Do(together, c, peer, step))
  {
    if step.InLife? { LifeEndsOn(c.life, peer.line.wire, step.lifeStep); }
    hide DoLife, CanLife, ClosedSocket;
  }

  lemma {:induction false} RunStopsForCause(together: bool, s: Pair, moves: seq<Move>)
    requires StoppedForCause(s.a) && StoppedForCause(s.b) && RunAll(together, s, moves).Some?
    ensures var t := RunAll(together, s, moves).value; StoppedForCause(t.a) && StoppedForCause(t.b)
    decreases |moves|
  {
    hide Do, Can, StoppedForCause;
    if moves != [] {
      var m := moves[0];
      StopsForCause(together, s.Of(m.x), s.Of(PeerOf(m.x)), m.step);
      RunStopsForCause(together, s.With(m.x, Do(together, s.Of(m.x), s.Of(PeerOf(m.x)), m.step)), moves[1..]);
    }
  }

  /** The writer goroutine stops only because the context is done, the queue is closed or the socket is
      broken; until then an open connection goes on taking packets. */
  lemma WriterStopsForCause(together: bool, s: Pair, x: End)
    requires Reachable(together, s)
    ensures var c := s.Of(x);
            && (c.line.writer.Stopped? ==> c.life.ctxDone || c.life.queueClosed || c.line.broken)
            && (c.life.initialized && !c.life.ctxDone && !c.life.queueClosed && !c.line.broken ==>
                  Can(c, s.Of(PeerOf(x)), Send(ToWriter)) || Can(c, s.Of(PeerOf(x)), OnLine(WriterWrites)))
  {
    var moves :| RunAll(together, START, moves) == Some(s);
    RunStopsForCause(together, START, moves);
    LineFacts(together, s, x);
    hide Reachable, RunAll, LifeOk, ReadOk, SendsOk, LineOk;
  }

  /** What a frame means, from whatever peer: before the connection is active exactly a hello is accepted,
      afterwards everything else; what is not accepted ends serve, before with an invalid hello and two
      closes of the socket, afterwards with a duplicated one and none so far. */
  lemma FramesAreJudged(c: Life, wire: seq<Frame>)
    requires CanLife(c, wire, ReadOne)
    ensures var f, c' := wire[c.read], DoLife(c, wire, ReadOne);
            && c'.read == c.read + 1
            && (c'.phase.Unwinding? <==> (f.Hello? <==> c.active))
            && (c'.phase.Unwinding? && c.active ==>
                  c'.phase.exit == ReaderFailed(DuplicatedHello) && c'.trace == c.trace)
            && (c'.phase.Unwinding? && !c.active ==>
                  && c'.phase.exit == HelloFailed(InvalidHello)
                  && c'.trace == c.trace + [SocketClosed(ProtocolError), SocketClosed(InternalError)])
  {
    assert c.trace + [] == c.trace;
  }

  /** A's read loop ends. */
  lemma ReaderEnds(together: bool, detached: bool) returns (s: Pair)
    ensures Reachable(together, s) && s.a.sends == []
    ensures s.a.life == Life(Unwinding(ReaderFailed(NormalClose)), FIRST_DEFERS + [CallOnClose], 1, true, true, false,
                             detached, false, false, [])
  {
    AtStart(together);
    hide Reachable;
    s := Next(together, START, A, GiveHello);
    s := Next(together, s, B, GiveHello);
    if !together { s := Next(together, s, B, OnLine(HelloWrites)); }
    s := Next(together, s, A, InLife(ReadOne));
    s := Next(together, s, A, OpenSucceeds(detached));
    s := Next(together, s, A, InLife(ReadFails(NormalClose)));
  }

  /** Serve's next deferred call at A. */
  lemma RunDeferred(together: bool, s: Pair) returns (t: Pair)
    requires Reachable(together, s) && s.a.life.phase.Unwinding? && s.a.life.defers != []
    ensures Reachable(together, t) && t.a.sends == s.a.sends
    ensures var c, c' := s.a.life, t.a.life;
            && |c'.defers| == |c.defers| - 1 && c'.phase == c.phase && c'.initialized == c.initialized
            && c'.detached == c.detached
            && (c'.queueClosed <==> c'.defers == [])
            && ((c.ctxDone <==> c.cancelled && !c.detached) ==> (c'.ctxDone <==> c'.cancelled && !c'.detached))
            && (c'.defers == [] ==> c'.cancelled)
  {
    t := Next(together, s, A, InLife(Unwind));
    LineFacts(together, t, A);
    hide Reachable, LineOk, StageOk, SendsOk, Traced;
  }

  /** It happens, whatever context is in place: serve has returned, and a send reports success
      though nobody received its packet. */
  lemma DroppedSendIsReportedSent(together: bool, detached: bool) returns (s: Pair)
    ensures Reachable(together, s) && s.a.sends == [Recovers] && ReportsSuccess(s.a.sends[0])
    ensures HandedOver(s.a.sends) == 0 && Exited(s.a.life) && (s.a.life.ctxDone <==> !detached)
  {
    hide Reachable, Can, Do;
    s := ReaderEnds(together, detached);
    s := RunDeferred(together, s);
    s := RunDeferred(together, s);
    s := RunDeferred(together, s);
    s := RunDeferred(together, s);
    s := RunDeferred(together, s);
    s := RunDeferred(together, s);
    s := RecoveredSend(together, s);
    assert s.a.sends[..0] == [];
  }

  lemma RecoveredSend(together: bool, s: Pair) returns (t: Pair)
    requires Reachable(together, s) && s.a.life.initialized && s.a.life.queueClosed
    ensures Reachable(together, t) && t.a.life == s.a.life && t.a.sends == s.a.sends + [Recovers]
  {
    hide Reachable;
    t := Next(together, s, A, Send(Recovers));
  }

  predicate NeverOpened(c: Conn) {
    c.life.phase.Unwinding? && !c.life.initialized
  }

  lemma NeverOpenedKept(together: bool, c: Conn, peer: Conn, step: Step)
    requires NeverOpened(c) && Can(c, peer, step)
    ensures NeverOpened(Do(together, c, peer, step))
  {
    hide Before, DoUnwind, Write, CanLine, DoLine, Accept;
    if step == InLife(Unwind) { UnwindShape(c.life); }
  }

  /** When opening fails, the initialized channel stays open for ever: a call, notification or
      NewStream that waits for it never goes on to send. */
  lemma {:induction false} FailedOpeningBlocksCalls(together: bool, s: Pair, x: End, moves: seq<Move>)
    requires NeverOpened(s.Of(x)) && RunAll(together, s, moves).Some?
    ensures var t := RunAll(together, s, moves).value;
            && NeverOpened(t.Of(x))
            && (forall how :: !Can(t.Of(x), t.Of(PeerOf(x)), Send(how)))
    decreases |moves|
  {
    hide Do;
    if moves != [] {
      var m := moves[0];
      if m.x == x { NeverOpenedKept(together, s.Of(x), s.Of(PeerOf(x)), m.step); }
      FailedOpeningBlocksCalls(together, s.With(m.x, Do(together, s.Of(m.x), s.Of(PeerOf(m.x)), m.step)), x,
                               moves[1..]);
    }
  }
}
