/** The life of one connection at both endpoints: the hello exchange, opening, the reader's end
    and the deferred calls (xrpc/conn.go:165-318, 539-559 and 712-726).

    Only hellos are told apart from other packets here; module Protocol has what happens between
    opening and the reader's end. `together` says whether the hello goroutine receives the hello
    and writes it in one step; the code does it in two (lines 257 and 258). */
module Serve {
  import opened Packets

  datatype Frame = Hello | Other

  /** Malformed: wspb.Read got a frame that is not binary or not a packet (wspb.go:36-38 and 50-53). */
  datatype ReadError = Cancelled | NormalClose | Failed | Malformed | InvalidHello | DuplicatedHello

  /** How serve ends. */
  datatype Exit = HelloFailed(error: ReadError) | OpenFailed | ReaderFailed(error: ReadError)

  datatype Deferred = CloseQueue | CancelContext | CloseSocket | Deactivate | CleanupStreams | CallOnClose

  /** What serve has deferred before it exchanges hellos, in the order it does so (lines 176-195);
      onClose follows once the connection is open (line 209). */
  const FIRST_DEFERS: seq<Deferred> := [CloseQueue, CancelContext, CloseSocket, Deactivate, CleanupStreams]

  datatype Phase =
    | SendingHello
    | AwaitingHello
    | CallingOnOpen
    | Reading
    | Unwinding(exit: Exit)

  /** A goroutine that receives from the write queue and writes to the socket. */
  datatype Taker = NotStarted | Ready | Holding(frame: Frame) | Stopped

  datatype Status = NormalClosure | AbnormalClosure | InternalError | ProtocolError | GoingAway | BadFrame

  datatype Event =
    | SocketClosed(status: Status)
    | ClosedCallback(error: Option<ReadError>)
    | StreamsCleaned
    | Deactivated
    | ContextCancelled
    | QueueClosed

  /** What goes out. `skipped` says that the hello was not handed over because the context had
      ended. */
  datatype Line = Line(hello: Taker, writer: Taker, wire: seq<Frame>, broken: bool, skipped: bool)

  /** Another packet than the hello was written first. */
  predicate Overtaken(l: Line) {
    l.wire != [] && l.wire[0].Other?
  }

  /** Where serve is. `detached` says that onConnOpen put a context in place that does not end
      with serve's own; `defers` is the stack of deferred calls. */
  datatype Life = Life(phase: Phase, defers: seq<Deferred>, read: nat, initialized: bool, active: bool, ctxDone: bool,
                       detached: bool, cancelled: bool, queueClosed: bool, trace: seq<Event>)

  /** serve has returned. */
  predicate Exited(c: Life) {
    c.phase.Unwinding? && c.defers == []
  }

  /** How writeWsMessage ends: a goroutine received the packet, the Done branch was taken, or the
      send on the closed queue panicked and was recovered. */
  datatype Sent = ToHello | ToWriter | SeesDone | Recovers

  /** writeWsMessage returned nil: after a recovered panic its result is the zero value. */
  predicate ReportsSuccess(how: Sent) {
    !how.SeesDone?
  }

  /** `sends` lists how the sends of calls and streams ended. */
  datatype Conn = Conn(life: Life, line: Line, sends: seq<Sent>)

  datatype Pair = Pair(a: Conn, b: Conn) {
    function Of(x: End): Conn {
      match x
      case A => a
      case B => b
    }

    function With(x: End, c: Conn): Pair {
      match x
      case A => Pair(c, b)
      case B => Pair(a, c)
    }
  }

  const SERVING := Conn(Life(SendingHello, FIRST_DEFERS, 0, false, false, false, false, false, false, []),
                        Line(Ready, NotStarted, [], false, false), [])

  const START := Pair(SERVING, SERVING)

  // ---------------------------------------------------------------- steps

  /** The goroutines around the write queue, and the socket. */
  datatype LineStep =
    | HelloWrites                    // the hello goroutine writes what it received
    | WriterWrites
    | WriterStops
    | BreakSocket

  /** The goroutine that runs serve, and what happens to it. */
  datatype LifeStep =
    | ReadOne
    | ReadFails(error: ReadError)
    | OpenFails
    | EndCtx
    | Unwind                         // the deferred call registered last

  datatype Step =
    | GiveHello                      // the hello goroutine receives the hello
    | SkipHello                      // writeWsMessage sees the context done; its error is ignored
    | OpenSucceeds(detached: bool)   // onConnOpen, then the connection is active
    | Send(how: Sent)                // writeWsMessage, for a packet of a call or stream
    | OnLine(lineStep: LineStep)
    | InLife(lifeStep: LifeStep)

  predicate CanLine(c: Life, l: Line, step: LineStep) {
    match step
    case HelloWrites => l.hello.Holding?
    case WriterWrites => l.writer.Holding?
    case WriterStops => l.writer.Ready? && (c.ctxDone || c.queueClosed)
    case BreakSocket => true
  }

  /** The branches of the select that are ready. Calls and streams start when the connection is
      initialized. */
  predicate CanSend(c: Life, l: Line, how: Sent) {
    c.initialized &&
    match how
    case ToHello => !c.queueClosed && l.hello.Ready?
    case ToWriter => !c.queueClosed && l.writer.Ready?
    case SeesDone => c.ctxDone
    case Recovers => c.queueClosed
  }

  predicate CanLife(c: Life, wire: seq<Frame>, step: LifeStep) {
    match step
    case ReadOne => (c.phase.AwaitingHello? || c.phase.Reading?) && c.read < |wire|
    case ReadFails(e) =>
      (c.phase.AwaitingHello? || c.phase.Reading?) && (e.Cancelled? || e.NormalClose? || e.Failed? || e.Malformed?)
    case OpenFails => c.phase.CallingOnOpen?
    case EndCtx => true
    case Unwind => c.phase.Unwinding? && c.defers != []
  }

  predicate Can(c: Conn, peer: Conn, step: Step) {
    match step
    case GiveHello => c.life.phase.SendingHello? && c.line.hello.Ready?
    case SkipHello => c.life.phase.SendingHello? && c.life.ctxDone
    case OpenSucceeds(_) => c.life.phase.CallingOnOpen?
    case Send(how) => CanSend(c.life, c.line, how)
    case OnLine(o) => CanLine(c.life, c.line, o)
    case InLife(o) => CanLife(c.life, peer.line.wire, o)
  }

  /** A write on a broken connection fails; the hello goroutine has only one write. */
  function Write(l: Line, f: Frame): Line {
    if l.broken then l else l.(wire := l.wire + [f])
  }

  function TakeHello(together: bool, l: Line): Line {
    if together then Write(l, Hello).(hello := Stopped) else l.(hello := Holding(Hello))
  }

  function DoLine(l: Line, step: LineStep): Line
    requires step.HelloWrites? ==> l.hello.Holding?
    requires step.WriterWrites? ==> l.writer.Holding?
  {
    match step
    case HelloWrites => Write(l, l.hello.frame).(hello := Stopped)
    case WriterWrites => Write(l, l.writer.frame).(writer := if l.broken then Stopped else Ready)
    case WriterStops => l.(writer := Stopped)
    case BreakSocket => l.(broken := true)
  }

  function Accept(l: Line, how: Sent): Line {
    match how
    case ToHello => l.(hello := Holding(Other))
    case ToWriter => l.(writer := Holding(Other))
    case _ => l
  }

  /** exchangeHello failed: close the socket and return. */
  function LeaveHello(c: Life, e: ReadError): Life {
    c.(phase := Unwinding(HelloFailed(e)), trace := c.trace + Before(HelloFailed(e)))
  }

  /** The read loop ended. */
  function LeaveLoop(c: Life, e: ReadError): Life {
    c.(phase := Unwinding(ReaderFailed(e)), trace := c.trace + Before(ReaderFailed(e)))
  }

  /** readWsMessage: what a frame means depends on whether the connection is active. */
  function DoRead(c: Life, f: Frame): Life {
    var c' := c.(read := c.read + 1);
    if !c.active then
      if f.Hello? then c'.(phase := CallingOnOpen) else LeaveHello(c', InvalidHello)
    else
      if f.Hello? then LeaveLoop(c', DuplicatedHello) else c'
  }

  /** What serve returns after the read loop, and passes to the closed callback. */
  function ReturnedError(e: ReadError): Option<ReadError> {
    if e.Cancelled? || e.NormalClose? then None else Some(e)
  }

  /** readWsMessage closes the socket itself when it refuses what it read. */
  function Refusal(e: ReadError): seq<Event> {
    match e
    case InvalidHello => [SocketClosed(ProtocolError)]
    case Malformed => [SocketClosed(BadFrame)]
    case _ => []
  }

  /** What serve does before the deferred calls. */
  function Before(exit: Exit): seq<Event> {
    match exit
    case HelloFailed(e) => Refusal(e) + [SocketClosed(InternalError)]
    case OpenFailed => [SocketClosed(InternalError)]
    case ReaderFailed(e) => Refusal(e) + if e.Cancelled? then [SocketClosed(GoingAway)] else []
  }

  /** What a deferred call does that others see: onClose tests the active flag, and the socket is
      not closed again when the loop has closed it. */
  function Shows(d: Deferred, exit: Exit, active: bool): seq<Event> {
    match d
    case CallOnClose => if active && exit.ReaderFailed? then [ClosedCallback(ReturnedError(exit.error))] else []
    case CleanupStreams => [StreamsCleaned]
    case Deactivate => [Deactivated]
    case CloseSocket =>
      if exit.ReaderFailed? && exit.error.Cancelled? then []
      else if exit.ReaderFailed? && exit.error.NormalClose? then [SocketClosed(NormalClosure)]
      else [SocketClosed(AbnormalClosure)]
    case CancelContext => [ContextCancelled]
    case CloseQueue => [QueueClosed]
  }

  function DoUnwind(c: Life): Life
    requires c.phase.Unwinding? && c.defers != []
  {
    var d := c.defers[|c.defers|-1];
    c.(defers := c.defers[..|c.defers|-1],
       trace := c.trace + Shows(d, c.phase.exit, c.active),
       active := c.active && !d.Deactivate?,
       cancelled := c.cancelled || d.CancelContext?,
       ctxDone := c.ctxDone || (d.CancelContext? && !c.detached),
       queueClosed := c.queueClosed || d.CloseQueue?)
  }

  function DoLife(c: Life, wire: seq<Frame>, step: LifeStep): Life
    requires CanLife(c, wire, step)
  {
    match step
    case ReadOne => DoRead(c, wire[c.read])
    case ReadFails(e) => if c.phase.AwaitingHello? then LeaveHello(c, e) else LeaveLoop(c, e)
    case OpenFails => c.(phase := Unwinding(OpenFailed), trace := c.trace + Before(OpenFailed))
    case EndCtx => c.(ctxDone := true)
    case Unwind => DoUnwind(c)
  }

  /** serve, or its reader, has closed the socket. */
  predicate ClosedSocket(trace: seq<Event>) {
    exists e | e in trace :: e.SocketClosed?
  }

  /** A step of serve, and what it does to the socket: once serve has closed it, writes fail. */
  function WithLife(c: Conn, life: Life): Conn {
    c.(life := life, line := c.line.(broken := c.line.broken || ClosedSocket(life.trace)))
  }

  function DoOpen(c: Life, detached: bool): Life {
    c.(phase := Reading, defers := c.defers + [CallOnClose], active := true, initialized := true, detached := detached)
  }

  function Do(together: bool, c: Conn, peer: Conn, step: Step): Conn
    requires Can(c, peer, step)
  {
    match step
    case GiveHello => c.(life := c.life.(phase := AwaitingHello), line := TakeHello(together, c.line))
    case SkipHello => c.(life := c.life.(phase := AwaitingHello), line := c.line.(skipped := true))
    case OpenSucceeds(detached) => c.(life := DoOpen(c.life, detached), line := c.line.(writer := Ready))
    case Send(how) => c.(line := Accept(c.line, how), sends := c.sends + [how])
    case OnLine(o) => c.(line := DoLine(c.line, o))
    case InLife(o) => WithLife(c, DoLife(c.life, peer.line.wire, o))
  }

  datatype Move = Move(x: End, step: Step)

  function RunAll(together: bool, s: Pair, moves: seq<Move>): Option<Pair>
    decreases |moves|
  {
    if moves == [] then Some(s)
    else
      var m := moves[0];
      if Can(s.Of(m.x), s.Of(PeerOf(m.x)), m.step) then
        RunAll(together, s.With(m.x, Do(together, s.Of(m.x), s.Of(PeerOf(m.x)), m.step)), moves[1..])
      else None
  }

  // ---------------------------------------------------------------- the invariant

  /** There is one hello, and the hello goroutine writes it. */
  ghost predicate OneHello(l: Line) {
    && (forall i, j | 0 <= i < j < |l.wire| :: !(l.wire[i].Hello? && l.wire[j].Hello?))
    && (!l.hello.Stopped? || l.skipped ==> forall i | 0 <= i < |l.wire| :: l.wire[i].Other?)
  }

  predicate TakersOk(together: bool, l: Line) {
    && !l.hello.NotStarted?
    && (l.writer.Holding? ==> l.writer.frame.Other?)
    && (l.hello.Holding? ==> l.hello.frame == if l.skipped then Other else Hello)
    && (together && l.hello.Holding? ==> l.skipped)
  }

  predicate FirstOk(together: bool, l: Line) {
    && (l.hello.Stopped? && !l.broken ==> l.wire != [])
    && (together && Overtaken(l) ==> l.skipped)
  }

  /** How the goroutines depend on how far serve is. */
  predicate StageOk(c: Life, l: Line) {
    && (c.phase.SendingHello? ==> l.hello.Ready? && !l.skipped && !c.initialized)
    && (l.hello.Ready? && !c.phase.SendingHello? ==> l.skipped)
    && (l.skipped && !l.hello.Ready? ==> c.initialized)
    && (l.writer.NotStarted? <==> !c.initialized)
    && (!c.initialized ==> forall i | 0 <= i < |l.wire| :: l.wire[i].Hello?)
    && (l.skipped ==> c.ctxDone)
  }

  /** The stack of deferred calls holds those registered first, up to the next one to run. */
  predicate DefersOk(c: Life) {
    && |c.defers| <= (if c.initialized then 6 else 5)
    && c.defers == (FIRST_DEFERS + [CallOnClose])[..|c.defers|]
    && (!c.phase.Unwinding? ==> |c.defers| == if c.initialized then 6 else 5)
  }

  predicate OpenOk(c: Life) {
    && (c.phase.SendingHello? || c.phase.AwaitingHello? || c.phase.CallingOnOpen? ==> !c.initialized)
    && (c.phase.Reading? || (c.phase.Unwinding? && |c.defers| == 6) ==> c.initialized && c.active)
    && (c.active ==> c.initialized && |c.defers| > 3)
    && (c.phase.Unwinding? ==> (c.initialized <==> c.phase.exit.ReaderFailed?))
  }

  function Callback(exit: Exit): seq<Event> {
    if exit.ReaderFailed? then [ClosedCallback(ReturnedError(exit.error))] else []
  }

  function SocketAtEnd(exit: Exit): seq<Event> {
    if exit.ReaderFailed? && exit.error.Cancelled? then []
    else if exit.ReaderFailed? && exit.error.NormalClose? then [SocketClosed(NormalClosure)]
    else [SocketClosed(AbnormalClosure)]
  }

  /** Everything serve does on its way out, by how it ends. */
  function Farewell(exit: Exit): seq<Event> {
    Before(exit) + Callback(exit) + [StreamsCleaned, Deactivated] + SocketAtEnd(exit) + [ContextCancelled, QueueClosed]
  }

  /** The part of it done when `left` deferred calls are left. */
  function Traced(exit: Exit, left: nat): seq<Event> {
    if left >= 6 then Before(exit)
    else if left == 5 then Before(exit) + Callback(exit)
    else if left == 4 then Before(exit) + Callback(exit) + [StreamsCleaned]
    else if left == 3 then Before(exit) + Callback(exit) + [StreamsCleaned, Deactivated]
    else if left == 2 then Before(exit) + Callback(exit) + [StreamsCleaned, Deactivated] + SocketAtEnd(exit)
    else if left == 1 then
      Before(exit) + Callback(exit) + [StreamsCleaned, Deactivated] + SocketAtEnd(exit) + [ContextCancelled]
    else Farewell(exit)
  }

  predicate TraceOk(c: Life) {
    && c.trace == (if c.phase.Unwinding? then Traced(c.phase.exit, |c.defers|) else [])
    && (c.cancelled <==> c.phase.Unwinding? && |c.defers| <= 1)
    && (c.queueClosed <==> Exited(c))
    && (c.cancelled && !c.detached ==> c.ctxDone)
  }

  /** A connection against what its peer wrote. */
  predicate ReadOk(c: Life, wire: seq<Frame>) {
    && c.read <= |wire|
    && (c.phase.SendingHello? || c.phase.AwaitingHello? ==> c.read == 0)
    && (c.phase.CallingOnOpen? || c.initialized ==> c.read > 0 && wire[0].Hello?)
    && (c.phase.Unwinding? ==>
          match c.phase.exit
          case HelloFailed(e) =>
            !e.DuplicatedHello? && (if e.InvalidHello? then c.read > 0 && wire[0].Other? else c.read == 0)
          case OpenFailed => c.read > 0 && wire[0].Hello?
          case ReaderFailed(e) => !e.DuplicatedHello? && !e.InvalidHello?)
  }

  ghost predicate LineOk(together: bool, l: Line) {
    OneHello(l) && TakersOk(together, l) && FirstOk(together, l)
  }

  /** Packets of calls and streams that were received from the queue, that are on the wire, and that
      a goroutine holds. */
  function HandedOver(sends: seq<Sent>): nat {
    if sends == [] then 0
    else HandedOver(sends[..|sends|-1]) + if sends[|sends|-1].ToHello? || sends[|sends|-1].ToWriter? then 1 else 0
  }

  function OthersIn(wire: seq<Frame>): nat {
    if wire == [] then 0 else OthersIn(wire[..|wire|-1]) + if wire[|wire|-1].Other? then 1 else 0
  }

  function Held(l: Line): nat {
    (if l.hello == Holding(Other) then 1 else 0) + (if l.writer == Holding(Other) then 1 else 0)
  }

  /** What is on the wire or about to be written was handed over, and unless the socket broke, that is
      all that was. */
  predicate SendsOk(c: Conn) {
    && OthersIn(c.line.wire) + Held(c.line) <= HandedOver(c.sends)
    && (!c.line.broken ==> HandedOver(c.sends) == OthersIn(c.line.wire) + Held(c.line))
    && (Recovers in c.sends ==> c.life.queueClosed)
  }

  ghost predicate LifeOk(c: Life) {
    DefersOk(c) && OpenOk(c) && TraceOk(c)
  }

  ghost predicate ConnOk(together: bool, c: Conn) {
    && LineOk(together, c.line) && StageOk(c.life, c.line) && LifeOk(c.life) && SendsOk(c)
    && (ClosedSocket(c.life.trace) ==> c.line.broken)
  }

  ghost predicate PairOk(together: bool, c: Conn, peer: Conn) {
    ConnOk(together, c) && ConnOk(together, peer) && ReadOk(c.life, peer.line.wire) && ReadOk(peer.life, c.line.wire)
  }

  lemma LineStepKeeps(together: bool, c: Life, l: Line, step: LineStep)
    requires LineOk(together, l) && StageOk(c, l) && CanLine(c, l, step)
    ensures LineOk(together, DoLine(l, step)) && StageOk(c, DoLine(l, step))
    ensures l.wire <= DoLine(l, step).wire
  {
  }

  lemma OthersAppend(wire: seq<Frame>, f: Frame)
    ensures OthersIn(wire + [f]) == OthersIn(wire) + if f.Other? then 1 else 0
  {
    assert (wire + [f])[..|wire|] == wire;
  }

  lemma LineStepAccounts(together: bool, c: Life, l: Line, step: LineStep)
    requires TakersOk(together, l) && CanLine(c, l, step)
    ensures OthersIn(DoLine(l, step).wire) + Held(DoLine(l, step)) <= OthersIn(l.wire) + Held(l)
    ensures !DoLine(l, step).broken ==>
              !l.broken && OthersIn(DoLine(l, step).wire) + Held(DoLine(l, step)) == OthersIn(l.wire) + Held(l)
  {
    if step.HelloWrites? { OthersAppend(l.wire, l.hello.frame); }
    else if step.WriterWrites? { OthersAppend(l.wire, l.writer.frame); }
    hide OthersIn;
  }

  lemma SendKeeps(together: bool, c: Conn, how: Sent)
    requires ConnOk(together, c) && CanSend(c.life, c.line, how)
    ensures ConnOk(together, c.(line := Accept(c.line, how), sends := c.sends + [how]))
  {
    assert (c.sends + [how])[..|c.sends|] == c.sends;
    assert Recovers in c.sends + [how] ==> Recovers in c.sends || how == Recovers;
    hide LifeOk, OthersIn;
  }

  /** A deferred call changes neither what was read nor how serve ends. */
  lemma UnwindShape(c: Life)
    requires c.phase.Unwinding? && c.defers != []
    ensures var c' := DoUnwind(c);
            && c'.phase == c.phase && c'.read == c.read && c'.initialized == c.initialized
            && (c.ctxDone ==> c'.ctxDone) && (c.queueClosed ==> c'.queueClosed)
  {
    hide Before;
  }

  lemma UnwindReads(c: Life, l: Line, wire: seq<Frame>)
    requires StageOk(c, l) && ReadOk(c, wire) && c.phase.Unwinding? && c.defers != []
    ensures StageOk(DoUnwind(c), l) && ReadOk(DoUnwind(c), wire)
  {
    UnwindShape(c);
    hide DoUnwind;
  }

  /** The call that runs next is the one registered last of those left. */
  lemma NextDeferred(c: Life)
    requires DefersOk(c) && c.defers != []
    ensures var n := |c.defers| - 1;
            && c.defers[n] == (if n == 5 then CallOnClose else FIRST_DEFERS[n])
            && c.defers[..n] == (FIRST_DEFERS + [CallOnClose])[..n]
  {
  }

  lemma UnwindKeeps(c: Life)
    requires LifeOk(c) && c.phase.Unwinding? && c.defers != []
    ensures LifeOk(DoUnwind(c))
  {
    NextDeferred(c);
    hide Before, Farewell;
    UnwindTraces(c);
  }

  lemma UnwindTraces(c: Life)
    requires LifeOk(c) && c.phase.Unwinding? && c.defers != []
    ensures TraceOk(DoUnwind(c))
  {
    NextDeferred(c);
    hide Before;
  }

  lemma ReadKeeps(c: Life, l: Line, peer: Line)
    requires LifeOk(c) && StageOk(c, l) && ReadOk(c, peer.wire) && OneHello(peer)
    requires (c.phase.AwaitingHello? || c.phase.Reading?) && c.read < |peer.wire|
    ensures var c' := DoRead(c, peer.wire[c.read]); LifeOk(c') && StageOk(c', l) && ReadOk(c', peer.wire)
  {
    hide Before;
  }

  lemma LifeStepKeeps(c: Life, l: Line, peer: Line, step: LifeStep)
    requires LifeOk(c) && StageOk(c, l) && ReadOk(c, peer.wire) && OneHello(peer) && CanLife(c, peer.wire, step)
    ensures var c' := DoLife(c, peer.wire, step);
            LifeOk(c') && StageOk(c', l) && ReadOk(c', peer.wire) && (c.queueClosed ==> c'.queueClosed)
  {
    hide Before, DoUnwind, DoRead, OneHello;
    if step.Unwind? {
      UnwindKeeps(c);
      UnwindReads(c, l, peer.wire);
      UnwindShape(c);
      hide LifeOk, StageOk, ReadOk;
    } else if step.ReadOne? {
      ReadKeeps(c, l, peer);
      ReadShape(c, peer.wire[c.read]);
      hide LifeOk, StageOk, ReadOk;
    }
  }

  lemma ReadShape(c: Life, f: Frame)
    ensures DoRead(c, f).queueClosed == c.queueClosed
  {
  }

  lemma OpeningKeeps(together: bool, c: Conn, peer: Conn, step: Step)
    requires PairOk(together, c, peer) && Can(c, peer, step) && !step.OnLine? && !step.InLife? && !step.Send?
    ensures PairOk(together, Do(together, c, peer, step), peer)
  {
    OthersAppend(c.line.wire, Hello);
    hide OthersIn, HandedOver;
  }

  lemma BreakingKeeps(together: bool, c: Life, l: Line)
    requires LineOk(together, l) && StageOk(c, l)
    ensures LineOk(together, l.(broken := true)) && StageOk(c, l.(broken := true))
  {
  }

  lemma LifeKeepsConn(together: bool, c: Conn, peer: Conn, step: LifeStep)
    requires PairOk(together, c, peer) && CanLife(c.life, peer.line.wire, step)
    ensures PairOk(together, WithLife(c, DoLife(c.life, peer.line.wire, step)), peer)
  {
    LifeStepKeeps(c.life, c.line, peer.line, step);
    hide LineOk, StageOk, LifeOk, ReadOk, DoLife, CanLife, HandedOver, OthersIn, ClosedSocket;
    BreakingKeeps(together, DoLife(c.life, peer.line.wire, step), c.line);
  }

  lemma StepKeepsPair(together: bool, c: Conn, peer: Conn, step: Step)
    requires PairOk(together, c, peer) && Can(c, peer, step)
    ensures PairOk(together, Do(together, c, peer, step), peer)
  {
    hide TakersOk, FirstOk, LifeOk, StageOk, DoLine, DoLife, CanLife, CanSend, OthersIn, HandedOver, Held;
    match step
    case OnLine(o) =>
      LineStepKeeps(together, c.life, c.line, o);
      LineStepAccounts(together, c.life, c.line, o);
    case InLife(o) => LifeKeepsConn(together, c, peer, o);
    case Send(how) => SendKeeps(together, c, how);
    case _ => OpeningKeeps(together, c, peer, step);
  }

  lemma {:induction false} RunKeepsPair(together: bool, s: Pair, moves: seq<Move>)
    requires PairOk(together, s.a, s.b) && RunAll(together, s, moves).Some?
    ensures var t := RunAll(together, s, moves).value;
            PairOk(together, t.a, t.b) && PairOk(together, t.b, t.a)
    decreases |moves|
  {
    hide ConnOk, Do, Can;
    if moves != [] {
      var m := moves[0];
      var c, peer := s.Of(m.x), s.Of(PeerOf(m.x));
      StepKeepsPair(together, c, peer, m.step);
      RunKeepsPair(together, s.With(m.x, Do(together, c, peer, m.step)), moves[1..]);
    }
  }

  ghost predicate Reachable(together: bool, s: Pair) {
    exists moves :: RunAll(together, START, moves) == Some(s)
  }

  lemma ReachableOk(together: bool, s: Pair, x: End)
    requires Reachable(together, s)
    ensures PairOk(together, s.Of(x), s.Of(PeerOf(x)))
  {
    var moves :| RunAll(together, START, moves) == Some(s);
    RunKeepsPair(together, START, moves);
    hide ConnOk;
  }
}
