/** When the hello is the first packet, and when its receiver reports an error
    (xrpc/conn.go:255-314). Whether the hello can still be overtaken, and whether an endpoint can
    still end with a hello error, is decided by the state they are in, for all continuations. */
module Handshake {
  import opened Packets
  import opened Serve

  lemma LineFacts(together: bool, s: Pair, x: End)
    requires Reachable(together, s)
    ensures LineOk(together, s.Of(x).line) && StageOk(s.Of(x).life, s.Of(x).line)
    ensures LifeOk(s.Of(x).life) && ReadOk(s.Of(x).life, s.Of(PeerOf(x)).line.wire) && SendsOk(s.Of(x))
  {
    ReachableOk(together, s, x);
    hide LineOk, StageOk, LifeOk, ReadOk, SendsOk, Reachable;
  }

  // ---------------------------------------------------------------- runs

  lemma {:induction false} RunAppend(together: bool, s: Pair, moves: seq<Move>, m: Move)
    requires RunAll(together, s, moves).Some?
    requires var t := RunAll(together, s, moves).value; Can(t.Of(m.x), t.Of(PeerOf(m.x)), m.step)
    ensures var t := RunAll(together, s, moves).value;
            RunAll(together, s, moves + [m]) == Some(t.With(m.x, Do(together, t.Of(m.x), t.Of(PeerOf(m.x)), m.step)))
    decreases |moves|
  {
    hide Can, Do;
    if moves == [] {
      assert [m][1..] == [];
      var t := s.With(m.x, Do(together, s.Of(m.x), s.Of(PeerOf(m.x)), m.step));
      assert RunAll(together, t, []) == Some(t);
    } else {
      assert (moves + [m])[1..] == moves[1..] + [m];
      var n := moves[0];
      RunAppend(together, s.With(n.x, Do(together, s.Of(n.x), s.Of(PeerOf(n.x)), n.step)), moves[1..], m);
    }
  }

  /** A step in which no context ends, nothing breaks and nothing fails. */
  predicate CalmStep(step: Step) {
    match step
    case SkipHello => false
    case OnLine(o) => o.HelloWrites? || o.WriterWrites?
    case InLife(o) => o.ReadOne?
    case _ => true
  }

  predicate Calm(moves: seq<Move>) {
    forall m | m in moves :: CalmStep(m.step)
  }

  /** Some run leads from `s` to `t`; if `calm`, one in which nothing goes wrong. */
  ghost predicate Leads(together: bool, calm: bool, s: Pair, t: Pair) {
    exists moves :: RunAll(together, s, moves) == Some(t) && (calm ==> Calm(moves))
  }

  lemma AtOnce(together: bool, calm: bool, s: Pair)
    ensures Leads(together, calm, s, s)
  {
    assert RunAll(together, s, []) == Some(s) && Calm([]);
  }

  /** One more step of a run. */
  lemma Then(together: bool, calm: bool, s: Pair, t: Pair, x: End, step: Step) returns (u: Pair)
    requires Leads(together, calm, s, t) && Can(t.Of(x), t.Of(PeerOf(x)), step) && (calm ==> CalmStep(step))
    ensures u == t.With(x, Do(together, t.Of(x), t.Of(PeerOf(x)), step)) && Leads(together, calm, s, u)
  {
    var moves :| RunAll(together, s, moves) == Some(t) && (calm ==> Calm(moves));
    var m := Move(x, step);
    RunAppend(together, s, moves, m);
    u := t.With(x, Do(together, t.Of(x), t.Of(PeerOf(x)), step));
    hide CalmStep, RunAll, Can, Do;
    assert Calm(moves) && CalmStep(step) ==> Calm(moves + [m]);
  }

  lemma CalmIsRun(together: bool, s: Pair, t: Pair)
    requires Leads(together, true, s, t)
    ensures Leads(together, false, s, t)
  {
  }

  lemma AtStart(together: bool)
    ensures Reachable(together, START)
  {
    assert RunAll(together, START, []) == Some(START);
  }

  /** One more step of a run from the start. */
  lemma Next(together: bool, s: Pair, x: End, step: Step) returns (t: Pair)
    requires Reachable(together, s) && Can(s.Of(x), s.Of(PeerOf(x)), step)
    ensures t == s.With(x, Do(together, s.Of(x), s.Of(PeerOf(x)), step)) && Reachable(together, t)
  {
    var moves :| RunAll(together, START, moves) == Some(s);
    RunAppend(together, START, moves, Move(x, step));
    t := s.With(x, Do(together, s.Of(x), s.Of(PeerOf(x)), step));
  }

  // ---------------------------------------------------------------- what a sender knows

  /** The reader has taken something other than a hello. */
  ghost predicate HeardMore(c: Life, wire: seq<Frame>) {
    exists i :: 0 <= i < c.read && i < |wire| && wire[i].Other?
  }

  lemma {:induction false} NoneOfThem(wire: seq<Frame>, i: nat)
    requires OthersIn(wire) == 0 && i < |wire|
    ensures wire[i].Hello?
    decreases |wire|
  {
    if i < |wire| - 1 { NoneOfThem(wire[..|wire|-1], i); }
  }

  /** An endpoint writes at most one hello. It is its first packet if no other packet was handed over
      yet, and also once the peer has opened. When hand-off and write are one step, it is the first
      packet whenever it is handed over, and it is not only if the context had ended. */
  lemma HelloComesFirst(together: bool, s: Pair, x: End, i: nat, j: nat)
    requires Reachable(together, s) && i < |s.Of(x).line.wire| && j < |s.Of(x).line.wire|
    ensures var l := s.Of(x).line;
            && (l.wire[i].Hello? && l.wire[j].Hello? ==> i == j)
            && (HandedOver(s.Of(x).sends) == 0 || s.Of(PeerOf(x)).life.initialized ==> l.wire[0].Hello?)
            && (together && !l.skipped ==> (l.wire[i].Hello? <==> i == 0))
            && (together && Overtaken(l) ==> l.skipped && s.Of(x).life.ctxDone)
  {
    LineFacts(together, s, x);
    LineFacts(together, s, PeerOf(x));
    if HandedOver(s.Of(x).sends) == 0 { NoneOfThem(s.Of(x).line.wire, 0); }
    hide Reachable, LifeOk, HandedOver, OthersIn;
  }

  lemma WireGrows(together: bool, c: Conn, peer: Conn, step: Step)
    requires Can(c, peer, step)
    ensures c.line.wire <= Do(together, c, peer, step).line.wire
  {
    hide DoLife;
  }

  lemma {:induction false} RunGrows(together: bool, s: Pair, moves: seq<Move>, x: End)
    requires RunAll(together, s, moves).Some?
    ensures s.Of(x).line.wire <= RunAll(together, s, moves).value.Of(x).line.wire
    decreases |moves|
  {
    hide Can, Do;
    if moves != [] {
      var m := moves[0];
      if m.x == x { WireGrows(together, s.Of(x), s.Of(PeerOf(x)), m.step); }
      RunGrows(together, s.With(m.x, Do(together, s.Of(m.x), s.Of(PeerOf(m.x)), m.step)), moves[1..], x);
    }
  }

  /** Who has heard anything but a hello from its peer can send: its own hello is the first packet,
      then and in every continuation. */
  lemma HeardMoreMeansFirst(together: bool, s: Pair, x: End, t: Pair)
    requires Reachable(together, s) && Leads(together, false, s, t)
    requires HeardMore(s.Of(x).life, s.Of(PeerOf(x)).line.wire)
    ensures t.Of(x).line.wire != [] && t.Of(x).line.wire[0].Hello?
  {
    LineFacts(together, s, PeerOf(x));
    hide Reachable, LifeOk, SendsOk, LineOk;
    var moves :| RunAll(together, s, moves) == Some(t);
    RunGrows(together, s, moves, x);
  }

  // ---------------------------------------------------------------- until when a hello can be overtaken

  predicate Shaking(p: Phase) { p.SendingHello? || p.AwaitingHello? }

  /** The hello is the first packet, or can still become it. */
  predicate HelloMayComeFirst(c: Conn) {
    if c.line.wire != [] then c.line.wire[0].Hello?
    else !c.line.broken && (c.life.phase.SendingHello? || c.line.hello == Holding(Hello))
  }

  /** The endpoint is open, or can still open. */
  predicate MayOpen(c: Conn, peer: Conn) {
    c.life.initialized || c.life.phase.CallingOnOpen? || (Shaking(c.life.phase) && HelloMayComeFirst(peer))
  }

  /** A goroutine holds another packet, or can still get one. */
  predicate MayCarry(c: Conn) {
    || c.line.writer.Holding? || c.line.hello == Holding(Other)
    || (!c.life.queueClosed && (c.line.writer.Ready? || c.line.hello.Ready?))
  }

  /** The hello goroutine is not done, and another packet can still be handed over and written. */
  predicate MayBeOvertaken(c: Conn, peer: Conn) {
    !c.line.broken && !c.line.hello.Stopped? && MayOpen(c, peer) && (c.life.initialized ==> MayCarry(c))
  }

  predicate Safe(c: Conn, peer: Conn) {
    !Overtaken(c.line) && !MayBeOvertaken(c, peer)
  }

  lemma PeerKeepsHelloLate(together: bool, peer: Conn, c: Conn, step: Step)
    requires ConnOk(together, peer) && !HelloMayComeFirst(peer) && Can(peer, c, step)
    ensures !HelloMayComeFirst(Do(together, peer, c, step))
  {
    hide LifeOk, SendsOk, CanLine, DoLine, CanLife, DoLife;
    match step
    case OnLine(o) => LineKeepsHelloLate(together, peer, o);
    case InLife(o) => LifeKeepsHelloLate(together, peer, c, o);
    case _ =>
  }

  lemma LineKeepsHelloLate(together: bool, c: Conn, step: LineStep)
    requires ConnOk(together, c) && !HelloMayComeFirst(c) && CanLine(c.life, c.line, step)
    ensures !HelloMayComeFirst(c.(line := DoLine(c.line, step)))
  {
    hide LifeOk, SendsOk, StageOk;
  }

  lemma LifeKeepsHelloLate(together: bool, c: Conn, peer: Conn, step: LifeStep)
    requires !HelloMayComeFirst(c) && CanLife(c.life, peer.line.wire, step)
    ensures !HelloMayComeFirst(WithLife(c, DoLife(c.life, peer.line.wire, step)))
  {
    hide DoUnwind, Before, ClosedSocket;
    if step.Unwind? { UnwindShape(c.life); }
  }

  lemma PeerKeepsSafe(together: bool, c: Conn, peer: Conn, step: Step)
    requires ConnOk(together, peer) && Safe(c, peer) && Can(peer, c, step)
    ensures Safe(c, Do(together, peer, c, step))
  {
    hide ConnOk, HelloMayComeFirst, Can, Do;
    if !HelloMayComeFirst(peer) { PeerKeepsHelloLate(together, peer, c, step); }
  }

  lemma LineKeepsSafe(together: bool, c: Conn, peer: Conn, step: LineStep)
    requires ConnOk(together, c) && Safe(c, peer) && CanLine(c.life, c.line, step)
    ensures Safe(c.(line := DoLine(c.line, step)), peer)
  {
    hide LifeOk, SendsOk, HelloMayComeFirst;
  }

  lemma LifeKeepsSafe(together: bool, c: Conn, peer: Conn, step: LifeStep)
    requires PairOk(together, c, peer) && Safe(c, peer) && CanLife(c.life, peer.line.wire, step)
    ensures Safe(WithLife(c, DoLife(c.life, peer.line.wire, step)), peer)
  {
    hide ClosedSocket, SendsOk, LineOk, StageOk, DoUnwind, Before, DefersOk, TraceOk;
    if step.Unwind? { UnwindShape(c.life); }
  }

  lemma OwnKeepsSafe(together: bool, c: Conn, peer: Conn, step: Step)
    requires PairOk(together, c, peer) && Safe(c, peer) && Can(c, peer, step)
    ensures Safe(Do(together, c, peer, step), peer)
  {
    hide CanLine, DoLine, CanLife, DoLife, DefersOk, TraceOk, SendsOk, HelloMayComeFirst;
    match step
    case OnLine(o) => LineKeepsSafe(together, c, peer, o);
    case InLife(o) => LifeKeepsSafe(together, c, peer, o);
    case _ =>
  }

  lemma {:induction false} RunKeepsSafe(together: bool, s: Pair, moves: seq<Move>, x: End)
    requires PairOk(together, s.a, s.b) && Safe(s.Of(x), s.Of(PeerOf(x))) && RunAll(together, s, moves).Some?
    ensures var t := RunAll(together, s, moves).value; Safe(t.Of(x), t.Of(PeerOf(x)))
    decreases |moves|
  {
    hide ConnOk, Do, Can, Safe, ReadOk;
    if moves != [] {
      var m := moves[0];
      var c, peer := s.Of(m.x), s.Of(PeerOf(m.x));
      StepKeepsPair(together, c, peer, m.step);
      if m.x == x { OwnKeepsSafe(together, c, peer, m.step); } else { PeerKeepsSafe(together, peer, c, m.step); }
      RunKeepsSafe(together, s.With(m.x, Do(together, c, peer, m.step)), moves[1..], x);
    }
  }

  // ---------------------------------------------------------------- the runs that overtake it

  /** What the peer may do meanwhile: get its hello written. */
  predicate OnlyShook(c: Life, c': Life) {
    (Shaking(c.phase) ==> Shaking(c'.phase)) && c'.read == c.read
  }

  lemma PeerWritesHello(together: bool, s: Pair, x: End) returns (t: Pair)
    requires PairOk(together, s.a, s.b) && HelloMayComeFirst(s.Of(PeerOf(x)))
    ensures Leads(together, true, s, t) && t.Of(x) == s.Of(x) && OnlyShook(s.Of(PeerOf(x)).life, t.Of(PeerOf(x)).life)
    ensures t.Of(PeerOf(x)).line.wire != [] && t.Of(PeerOf(x)).line.wire[0].Hello?
  {
    hide Leads, LifeOk, SendsOk, ReadOk;
    AtOnce(together, true, s);
    t := s;
    if t.Of(PeerOf(x)).line.wire == [] && t.Of(PeerOf(x)).life.phase.SendingHello? {
      t := Then(together, true, s, t, PeerOf(x), GiveHello);
    }
    if t.Of(PeerOf(x)).line.wire == [] {
      t := Then(together, true, s, t, PeerOf(x), OnLine(HelloWrites));
    }
  }

  /** The hello is held, or skipped, and not written yet. */
  predicate Waits(c: Conn, c': Conn) {
    && c'.life.phase.AwaitingHello? && c'.life.read == c.life.read && c'.life.active == c.life.active
    && c'.life.queueClosed == c.life.queueClosed && !c'.line.hello.Stopped?
    && c'.line.wire == c.line.wire && c'.line.broken == c.line.broken && c'.life.trace == c.life.trace
  }

  lemma AwaitsHello(together: bool, s: Pair, t: Pair, x: End) returns (u: Pair)
    requires Leads(together, !together, s, t) && Shaking(t.Of(x).life.phase) && !t.Of(x).line.hello.Stopped?
    requires t.Of(x).life.phase.SendingHello? ==> t.Of(x).line.hello.Ready?
    requires ClosedSocket(t.Of(x).life.trace) ==> t.Of(x).line.broken
    ensures Leads(together, !together, s, u) && u.Of(PeerOf(x)) == t.Of(PeerOf(x)) && Waits(t.Of(x), u.Of(x))
  {
    hide Leads;
    u := t;
    if t.Of(x).life.phase.SendingHello? {
      if together {
        u := ContextEnds(s, u, x);
        u := Skips(s, u, x);
      } else {
        u := Gives(s, u, x);
      }
    }
  }

  lemma Gives(s: Pair, t: Pair, x: End) returns (u: Pair)
    requires Leads(false, true, s, t) && t.Of(x).life.phase.SendingHello? && t.Of(x).line.hello.Ready?
    ensures Leads(false, true, s, u) && u.Of(PeerOf(x)) == t.Of(PeerOf(x)) && Waits(t.Of(x), u.Of(x))
  {
    hide Leads;
    u := Then(false, true, s, t, x, GiveHello);
  }

  lemma Skips(s: Pair, t: Pair, x: End) returns (u: Pair)
    requires Leads(true, false, s, t) && t.Of(x).life.phase.SendingHello?
    requires t.Of(x).line.hello.Ready? && t.Of(x).life.ctxDone
    ensures Leads(true, false, s, u) && u.Of(PeerOf(x)) == t.Of(PeerOf(x)) && Waits(t.Of(x), u.Of(x))
  {
    hide Leads;
    u := Then(true, false, s, t, x, SkipHello);
  }

  lemma ContextEnds(s: Pair, t: Pair, x: End) returns (u: Pair)
    requires Leads(true, false, s, t) && (ClosedSocket(t.Of(x).life.trace) ==> t.Of(x).line.broken)
    ensures Leads(true, false, s, u) && u == t.With(x, t.Of(x).(life := t.Of(x).life.(ctxDone := true)))
  {
    hide Leads;
    u := Then(true, false, s, t, x, InLife(EndCtx));
  }

  /** Before it opens: it reads the peer's hello and opens. */
  lemma Opens(together: bool, s: Pair, x: End) returns (t: Pair)
    requires PairOk(together, s.a, s.b) && Safe(s.Of(x), s.Of(PeerOf(x))) == false && !Overtaken(s.Of(x).line)
    requires !s.Of(x).life.initialized
    ensures Leads(together, !together, s, t) && OnlyShook(s.Of(PeerOf(x)).life, t.Of(PeerOf(x)).life)
    ensures var c := t.Of(x);
            && c.life.initialized && !c.life.queueClosed && c.line.writer.Ready?
            && !c.line.broken && c.line.wire == []
  {
    OpeningFacts(together, s.Of(x), s.Of(PeerOf(x)));
    hide PairOk, Leads;
    if s.Of(x).life.phase.CallingOnOpen? {
      AtOnce(together, !together, s);
      t := s;
    } else {
      t := PeerWritesHello(together, s, x);
      if together { CalmIsRun(together, s, t); }
      t := AwaitsHello(together, s, t, x);
      t := ReadsHello(together, s, t, x);
    }
    t := Then(together, !together, s, t, x, OpenSucceeds(false));
  }

  lemma ReadsHello(together: bool, s: Pair, t: Pair, x: End) returns (u: Pair)
    requires Leads(together, !together, s, t) && t.Of(x).life.phase.AwaitingHello?
    requires !t.Of(x).life.active && t.Of(x).life.read == 0
    requires t.Of(PeerOf(x)).line.wire != [] && t.Of(PeerOf(x)).line.wire[0].Hello?
    requires ClosedSocket(t.Of(x).life.trace) ==> t.Of(x).line.broken
    ensures Leads(together, !together, s, u)
    ensures u == t.With(x, t.Of(x).(life := t.Of(x).life.(phase := CallingOnOpen, read := 1)))
  {
    hide Leads;
    u := Then(together, !together, s, t, x, InLife(ReadOne));
  }

  lemma OpeningFacts(together: bool, c: Conn, peer: Conn)
    requires PairOk(together, c, peer) && MayBeOvertaken(c, peer) && !Overtaken(c.line) && !c.life.initialized
    ensures !c.life.queueClosed && !c.life.active && c.line.wire == [] && (Shaking(c.life.phase) ==> c.life.read == 0)
    ensures c.life.phase.SendingHello? ==> c.line.hello.Ready?
    ensures c.life.phase.CallingOnOpen? || Shaking(c.life.phase)
    ensures ClosedSocket(c.life.trace) ==> c.line.broken
  {
    if c.line.wire != [] { HelloIsOut(together, c); }
  }

  lemma HelloIsOut(together: bool, c: Conn)
    requires ConnOk(together, c) && c.line.wire != [] && !Overtaken(c.line)
    ensures c.line.hello.Stopped?
  {
    assert c.line.wire[0].Hello?;
    hide LifeOk, SendsOk;
  }

  /** Once open: another packet is handed over, if none is held, and written. */
  lemma Overtakes(together: bool, s: Pair, t: Pair, x: End) returns (u: Pair)
    requires Leads(together, !together, s, t) && t.Of(x).line.wire == [] && !t.Of(x).line.broken
    requires t.Of(x).life.initialized && MayCarry(t.Of(x))
    requires (t.Of(x).line.writer.Holding? ==> t.Of(x).line.writer.frame.Other?)
    ensures Leads(together, !together, s, u) && Overtaken(u.Of(x).line) && u.Of(PeerOf(x)) == t.Of(PeerOf(x))
  {
    hide Leads;
    u := t;
    if !u.Of(x).line.writer.Holding? && u.Of(x).line.hello != Holding(Other) {
      u := Then(together, !together, s, u, x, Send(if u.Of(x).line.writer.Ready? then ToWriter else ToHello));
    }
    u := Then(together, !together, s, u, x, OnLine(if u.Of(x).line.writer.Holding? then WriterWrites else HelloWrites));
  }

  lemma OvertakingRun(together: bool, s: Pair, x: End) returns (t: Pair)
    requires PairOk(together, s.a, s.b) && MayBeOvertaken(s.Of(x), s.Of(PeerOf(x))) && !Overtaken(s.Of(x).line)
    ensures Leads(together, !together, s, t) && Overtaken(t.Of(x).line)
    ensures OnlyShook(s.Of(PeerOf(x)).life, t.Of(PeerOf(x)).life)
  {
    if s.Of(x).life.initialized {
      NothingWritten(together, s.Of(x), s.Of(PeerOf(x)));
      hide PairOk, Leads, MayCarry;
      AtOnce(together, !together, s);
      t := Overtakes(together, s, s, x);
    } else {
      hide PairOk, Leads;
      t := Opens(together, s, x);
      t := Overtakes(together, s, t, x);
    }
  }

  lemma NothingWritten(together: bool, c: Conn, peer: Conn)
    requires PairOk(together, c, peer) && !Overtaken(c.line) && !c.line.hello.Stopped?
    ensures c.line.wire == [] && (c.line.writer.Holding? ==> c.line.writer.frame.Other?)
  {
    if c.line.wire != [] { HelloIsOut(together, c); }
  }

  /** A hello that was not overtaken yet is in some continuation if and only if its goroutine is not
      done and another packet can still be handed over and written. With hand-off and write in two
      steps, as the code has them, that takes no context that ends and nothing that fails. */
  lemma OvertakingBoundary(together: bool, s: Pair, x: End)
    requires Reachable(together, s) && !Overtaken(s.Of(x).line)
    ensures (exists t :: Leads(together, false, s, t) && Overtaken(t.Of(x).line)) <==>
              MayBeOvertaken(s.Of(x), s.Of(PeerOf(x)))
    ensures !together ==>
              ((exists t :: Leads(together, true, s, t) && Overtaken(t.Of(x).line)) <==>
                 MayBeOvertaken(s.Of(x), s.Of(PeerOf(x))))
  {
    ReachableOk(together, s, A);
    hide Reachable, PairOk, MayBeOvertaken;
    if MayBeOvertaken(s.Of(x), s.Of(PeerOf(x))) {
      var t := OvertakingRun(together, s, x);
      if !together { CalmIsRun(together, s, t); }
    } else {
      forall t | Leads(together, false, s, t) ensures !Overtaken(t.Of(x).line) { LeadsToSafe(together, s, t, x); }
      forall t | Leads(together, true, s, t) ensures !Overtaken(t.Of(x).line) { CalmIsRun(together, s, t); }
    }
  }

  lemma LeadsToSafe(together: bool, s: Pair, t: Pair, x: End)
    requires PairOk(together, s.a, s.b) && Safe(s.Of(x), s.Of(PeerOf(x))) && Leads(together, false, s, t)
    ensures Safe(t.Of(x), t.Of(PeerOf(x))) && PairOk(together, t.a, t.b) && PairOk(together, t.b, t.a)
  {
    var moves :| RunAll(together, s, moves) == Some(t);
    RunKeepsSafe(together, s, moves, x);
    RunKeepsPair(together, s, moves);
    hide PairOk, Safe;
  }

  // ---------------------------------------------------------------- hello errors

  function ExitOf(p: Phase): Option<Exit> {
    if p.Unwinding? then Some(p.exit) else None
  }

  predicate ReportsInvalid(c: Life) { ExitOf(c.phase) == Some(HelloFailed(InvalidHello)) }

  predicate ReportsDuplicate(c: Life) {
    ExitOf(c.phase) == Some(HelloFailed(DuplicatedHello)) || ExitOf(c.phase) == Some(ReaderFailed(DuplicatedHello)) ||
    ExitOf(c.phase) == Some(ReaderFailed(InvalidHello))
  }

  /** The reader has a hello, or has given up. */
  predicate PastHello(c: Life) { !Shaking(c.phase) && !ReportsInvalid(c) }

  lemma StepKeepsPast(together: bool, c: Conn, peer: Conn, step: Step)
    requires LifeOk(c.life) && PastHello(c.life) && Can(c, peer, step)
    ensures PastHello(Do(together, c, peer, step).life)
  {
    hide DoUnwind, Before, DefersOk, TraceOk, CanLine, DoLine, CanSend, Accept;
    if step == InLife(Unwind) { UnwindShape(c.life); }
  }

  lemma {:induction false} RunKeepsPast(together: bool, s: Pair, moves: seq<Move>, x: End)
    requires PairOk(together, s.a, s.b) && PastHello(s.Of(x).life) && RunAll(together, s, moves).Some?
    ensures PastHello(RunAll(together, s, moves).value.Of(x).life)
    decreases |moves|
  {
    hide LineOk, StageOk, LifeOk, SendsOk, Do, Can, PastHello, ReadOk;
    if moves != [] {
      var m := moves[0];
      var c, peer := s.Of(m.x), s.Of(PeerOf(m.x));
      StepKeepsPair(together, c, peer, m.step);
      if m.x == x { StepKeepsPast(together, c, peer, m.step); }
      RunKeepsPast(together, s.With(m.x, Do(together, c, peer, m.step)), moves[1..], x);
    }
  }

  lemma InvalidMeansOvertaken(together: bool, c: Conn, peer: Conn)
    requires PairOk(together, c, peer) && ReportsInvalid(c.life)
    ensures Overtaken(peer.line)
  {
    hide ConnOk;
  }

  lemma NoDuplicate(together: bool, c: Conn, peer: Conn)
    requires PairOk(together, c, peer)
    ensures !ReportsDuplicate(c.life)
  {
    hide ConnOk;
  }

  /** A reader that has no hello yet reports an invalid one when its peer's is overtaken. */
  lemma ReportingRun(together: bool, s: Pair, x: End) returns (t: Pair)
    requires PairOk(together, s.a, s.b) && PairOk(together, s.b, s.a) && Shaking(s.Of(x).life.phase)
    requires Overtaken(s.Of(PeerOf(x)).line) || MayBeOvertaken(s.Of(PeerOf(x)), s.Of(x))
    ensures Leads(together, false, s, t) && ReportsInvalid(t.Of(x).life)
  {
    if Overtaken(s.Of(PeerOf(x)).line) {
      AtOnce(together, false, s);
      t := s;
    } else {
      hide PairOk, MayBeOvertaken, Overtaken, Leads;
      t := OvertakingRun(together, s, PeerOf(x));
      if !together { CalmIsRun(together, s, t); }
    }
    hide PairOk, MayBeOvertaken, Leads;
    ShakingFacts(together, s, t, x);
    t := ReadsOther(together, s, t, x);
  }

  lemma ReadsOther(together: bool, s: Pair, t: Pair, x: End) returns (u: Pair)
    requires Leads(together, false, s, t) && Shaking(t.Of(x).life.phase) && Overtaken(t.Of(PeerOf(x)).line)
    requires t.Of(x).life.read == 0 && !t.Of(x).life.active
    requires t.Of(x).life.phase.SendingHello? ==> t.Of(x).line.hello.Ready?
    ensures Leads(together, false, s, u) && ReportsInvalid(u.Of(x).life)
  {
    hide Leads, Before;
    u := t;
    if t.Of(x).life.phase.SendingHello? { u := StartsWaiting(together, s, u, x); }
    u := Then(together, false, s, u, x, InLife(ReadOne));
  }

  lemma StartsWaiting(together: bool, s: Pair, t: Pair, x: End) returns (u: Pair)
    requires Leads(together, false, s, t) && t.Of(x).life.phase.SendingHello? && t.Of(x).line.hello.Ready?
    ensures Leads(together, false, s, u) && u.Of(PeerOf(x)) == t.Of(PeerOf(x))
    ensures u.Of(x).life == t.Of(x).life.(phase := AwaitingHello)
  {
    hide Leads;
    u := Then(together, false, s, t, x, GiveHello);
  }

  lemma ShakingFacts(together: bool, s: Pair, t: Pair, x: End)
    requires PairOk(together, s.a, s.b) && Leads(together, false, s, t) && Shaking(t.Of(x).life.phase)
    ensures t.Of(x).life.read == 0 && !t.Of(x).life.active
    ensures t.Of(x).life.phase.SendingHello? ==> t.Of(x).line.hello.Ready?
  {
    var moves :| RunAll(together, s, moves) == Some(t);
    RunKeepsPair(together, s, moves);
    hide LineOk, SendsOk, TraceOk, DefersOk;
  }

  /** Between two conforming endpoints nobody ever reports a duplicated hello. An endpoint reports an
      invalid one in some continuation if and only if it has done so, or has no hello yet and the
      peer's was overtaken or still may be. */
  lemma HelloErrorBoundary(together: bool, s: Pair, x: End)
    requires Reachable(together, s)
    ensures !ReportsDuplicate(s.Of(x).life)
    ensures (exists t :: Leads(together, false, s, t) && ReportsInvalid(t.Of(x).life)) <==>
            (ReportsInvalid(s.Of(x).life) ||
             (Shaking(s.Of(x).life.phase)
              && (Overtaken(s.Of(PeerOf(x)).line) || MayBeOvertaken(s.Of(PeerOf(x)), s.Of(x)))))
  {
    ReachableOk(together, s, A);
    ReachableOk(together, s, B);
    NoDuplicate(together, s.Of(x), s.Of(PeerOf(x)));
    hide Reachable, PairOk, Leads, ReportsInvalid, ReportsDuplicate, MayBeOvertaken, Overtaken;
    var c, peer := s.Of(x), s.Of(PeerOf(x));
    AtOnce(together, false, s);
    if Shaking(c.life.phase) && (Overtaken(peer.line) || MayBeOvertaken(peer, c)) {
      var t := ReportingRun(together, s, x);
    } else if !ReportsInvalid(c.life) {
      forall t | Leads(together, false, s, t) ensures !ReportsInvalid(t.Of(x).life) { StaysValid(together, s, t, x); }
    }
  }

  lemma StaysValid(together: bool, s: Pair, t: Pair, x: End)
    requires PairOk(together, s.a, s.b) && PairOk(together, s.b, s.a) && Leads(together, false, s, t)
    requires PastHello(s.Of(x).life) || Safe(s.Of(PeerOf(x)), s.Of(x))
    ensures !ReportsInvalid(t.Of(x).life)
  {
    hide PairOk, MayBeOvertaken, ReportsInvalid;
    if Safe(s.Of(PeerOf(x)), s.Of(x)) {
      LeadsToSafe(together, s, t, PeerOf(x));
      if ReportsInvalid(t.Of(x).life) { InvalidMeansOvertaken(together, t.Of(x), t.Of(PeerOf(x))); }
    } else {
      var moves :| RunAll(together, s, moves) == Some(t);
      RunKeepsPast(together, s, moves, x);
    }
  }

  /** With hand-off and write in one step, two endpoints whose contexts do not end before the
      hellos are handed over never see a hello error. */
  lemma HandshakeIsSafe(s: Pair, x: End)
    requires Reachable(true, s) && !s.Of(PeerOf(x)).line.skipped
    ensures !ReportsInvalid(s.Of(x).life) && !ReportsDuplicate(s.Of(x).life)
  {
    ReachableOk(true, s, x);
    hide Reachable, LifeOk, SendsOk, StageOk, TakersOk, OneHello;
  }

  /** With the two steps apart, a request overtakes the hello: A's hello goroutine holds its hello
      while A, which has read B's, opens, and its writer takes and writes a request. No context has
      ended and no connection is broken, but B, when it reads, reports an invalid hello. */
  lemma RequestOvertakesHello() returns (s: Pair, t: Pair)
    ensures Reachable(false, s) && !s.a.life.ctxDone && !s.b.life.ctxDone && !s.a.line.broken && !s.b.line.broken
    ensures !s.a.line.skipped && s.a.line.hello == Holding(Hello) && s.a.line.wire == [Other]
    ensures Can(s.b, s.a, InLife(ReadOne)) && t == s.With(B, Do(false, s.b, s.a, InLife(ReadOne)))
    ensures Reachable(false, t) && ReportsInvalid(t.b.life)
  {
    AtStart(false);
    hide Reachable;
    s := Next(false, START, A, GiveHello);
    s := Next(false, s, B, GiveHello);
    s := Next(false, s, B, OnLine(HelloWrites));
    s := Next(false, s, A, InLife(ReadOne));
    s := Next(false, s, A, OpenSucceeds(false));
    s := Next(false, s, A, Send(ToWriter));
    s := Next(false, s, A, OnLine(WriterWrites));
    t := Next(false, s, B, InLife(ReadOne));
  }
}
