/** Explicit runs: states the guarantees leave open are reached by the code as it is. */
module Runs {
  import opened Packets
  import opened Streams
  import opened Protocol
  import opened Invariants
  import opened Deadlock
  import opened Continuations
  import opened Cancellation

  /** One more step of a run. */
  lemma Advance(w: World, s: Sys, x: End, op: Op) returns (t: Sys)
    requires Reachable(w, s) && Enabled(w, s, Action(x, op))
    ensures t == Step(w, s, Action(x, op)) && Reachable(w, t)
  {
    var acts: seq<Action> :| Run(w, INIT, acts) == Some(s);
    RunAppend(w, INIT, acts, Action(x, op));
    t := Step(w, s, Action(x, op));
  }

  lemma ByCall(w: World, s: Sys, x: End, op: CallOp) returns (t: Sys)
    requires Reachable(w, s)
    requires var e := s.Of(x); CallGuard(e.inv, e.io.ctxDone, op) && CanEmit(e.io, CallEmits(e.inv, op))
    ensures Reachable(w, t)
    ensures var e := s.Of(x);
            t == s.With(x, e.(inv := CallEffect(e.inv, e.io.ctxDone, |e.io.out|, op),
                              io := Emit(e.io, CallEmits(e.inv, op))))
  {
    t := Advance(w, s, x, OfCall(op));
  }

  lemma ByRequest(w: World, s: Sys, x: End, op: RequestOp) returns (t: Sys)
    requires Reachable(w, s)
    requires var e := s.Of(x);
             RequestGuard(w.Of(x), e.srv, e.io.ctxDone, op) && CanEmit(e.io, RequestEmits(e.srv, op))
    ensures Reachable(w, t)
    ensures var e := s.Of(x);
            t == s.With(x, e.(srv := RequestEffect(w.Of(x), e.srv, e.io.ctxDone, |e.io.out|, op),
                              str := RequestOnTable(w.Of(x), e.srv, e.str, op),
                              io := Emit(e.io, RequestEmits(e.srv, op))))
  {
    t := Advance(w, s, x, OfRequest(op));
  }

  lemma ByStream(w: World, s: Sys, x: End, op: StreamOp) returns (t: Sys)
    requires Reachable(w, s)
    requires var e := s.Of(x);
             StreamGuard(e.inv, e.str, e.io.ctxDone, op) && CanEmit(e.io, StreamEmits(e.str, op))
    ensures Reachable(w, t)
    ensures var e := s.Of(x);
            t == s.With(x, e.(str := StreamEffect(e.inv, e.str, e.io.ctxDone, op),
                              io := Emit(e.io, StreamEmits(e.str, op))))
  {
    t := Advance(w, s, x, OfStream(op));
  }

  lemma ByLink(w: World, s: Sys, x: End, op: LinkOp) returns (t: Sys)
    requires Reachable(w, s) && LinkGuard(w.cap, s.Of(x).io, s.Of(PeerOf(x)).io, op)
    ensures Reachable(w, t)
    ensures t == s.With(x, LinkEffect(w.cap, s.Of(x), s.Of(PeerOf(x)).io, op))
  {
    t := Advance(w, s, x, OfLink(op));
  }

  /** B serves one method and one stream; a direction of the wire holds four packets. */
  const HELLO := Any("Ping", [1, 2, 3])
  const SERVICES := Config(map["Echo" := Service({"Ping"}, {"Feed"})], {"Ping"})
  const DEMO := World(SERVICES, SERVICES, 4)

  lemma Start(w: World)
    ensures Reachable(w, INIT)
  {
    assert Run(w, INIT, []) == Some(INIT);
  }

  /** A unary call up to the moment its request is on the wire and the call waits. */
  lemma CallWaits() returns (s: Sys)
    ensures Reachable(DEMO, s)
    ensures s.b == IDLE
    ensures s.a == IDLE.(inv := Invokes(1, map[1 := Call(Unary, "Echo", "Ping", Message(HELLO), Waiting, Some(0))],
                                        map[], {1}, map[1 := ChanOpen], None, {}, map[]),
                         io := IDLE.io.(out := [Request(RequestMsg(1, "Echo", "Ping", Message(HELLO), false))],
                                        written := 1))
  {
    Start(DEMO);
    hide Reachable;
    s := INIT;
    s := ByCall(DEMO, s, A, StartCall("Echo", "Ping", HELLO, false));
    s := ByCall(DEMO, s, A, Announce(1));
    s := ByCall(DEMO, s, A, Grant(1));
    s := ByCall(DEMO, s, A, SendRequest(1));
    s := ByCall(DEMO, s, A, Arrive(1));
    s := ByLink(DEMO, s, A, Write);
  }

  const PING := RequestMsg(1, "Echo", "Ping", Message(HELLO), false)

  /** B has run the handler and written the response; A has not read it. */
  lemma CallAnswered() returns (s: Sys)
    ensures Reachable(DEMO, s)
    ensures s.a == IDLE.(inv := Invokes(1, map[1 := Call(Unary, "Echo", "Ping", Message(HELLO), Waiting, Some(0))],
                                        map[], {1}, map[1 := ChanOpen], None, {}, map[]),
                         io := IDLE.io.(out := [Request(PING)], written := 1))
    ensures s.b.io == IDLE.io.(out := [Response(1, Some(Reply(HELLO)), "")], written := 1, read := 1)
  {
    s := CallWaits();
    hide Reachable;
    s := ByLink(DEMO, s, B, Read);
    s := ByRequest(DEMO, s, B, Accept(0));
    s := ByRequest(DEMO, s, B, HandlerReturns(0, Replied(HELLO)));
    s := ByRequest(DEMO, s, B, Decide(0));
    s := ByRequest(DEMO, s, B, Respond(0));
    s := ByLink(DEMO, s, B, Write);
  }

  /** The deadlock is reached: processResponse has looked the call up and sends, and then the
      call's context ends before it receives. */
  lemma DeadlockIsReached() returns (s: Sys)
    ensures Reachable(DEMO, s) && Stuck(s.a.inv, 0)
    ensures !s.a.io.ctxDone && !s.b.io.ctxDone
  {
    s := CallAnswered();
    hide Reachable;
    s := ByLink(DEMO, s, A, Read);
    s := ByCall(DEMO, s, A, LockResponse(0));
    s := ByCall(DEMO, s, A, CtxEnds(1));
  }

  /** B runs the handler; meanwhile the call's context ends at A, which writes a cancel packet. */
  lemma CancelSent() returns (s: Sys)
    ensures Reachable(DEMO, s) && !s.a.io.ctxDone
    ensures s.a.io.out == [Request(PING), CtxCancel(1, "deadline")] && s.a.io.written == 2
    ensures s.b == IDLE.(srv := Requests(map[0 := Req(PING, Running, None, None, None)],
                                         map[1 := CancelEntry(0, false)], map[]),
                         io := IDLE.io.(read := 1))
  {
    s := CallWaits();
    hide Reachable;
    s := ByLink(DEMO, s, B, Read);
    s := ByRequest(DEMO, s, B, Accept(0));
    s := ByCall(DEMO, s, A, CtxEnds(1));
    s := ByCall(DEMO, s, A, SendCancel(1, "deadline"));
    s := ByLink(DEMO, s, A, Write);
    assert s.b.srv.reqs == map[0 := Req(PING, Running, None, None, None)];
  }

  /** A cancelled call is answered: the cancel packet is read while the handler runs and cancels
      its context, the handler returns an error, and the response is handed over all the same. */
  lemma CancelledIsAnswered() returns (s: Sys)
    ensures Reachable(DEMO, s) && !s.a.io.ctxDone && !s.b.io.ctxDone
    ensures 0 in s.b.srv.reqs && s.b.srv.reqs[0].cause == Some("deadline") && s.b.srv.reqs[0].answeredAt == Some(0)
    ensures s.b.io.out == [Response(1, None, "cancelled")]
  {
    s := CancelSent();
    hide Reachable;
    s := ByLink(DEMO, s, B, Read);
    s := ByRequest(DEMO, s, B, HandlerReturns(0, Failed("cancelled")));
    s := ByRequest(DEMO, s, B, Decide(0));
    s := ByRequest(DEMO, s, B, Respond(0));
  }

  /** A cancellation is lost: the cancel packet is read before the request's goroutine has registered
      it. The handler runs, and in every continuation its context has not been cancelled. */
  lemma CancelIsLost() returns (s: Sys)
    ensures Reachable(DEMO, s) && HasReq(s.b.srv, 0, Running) && !s.a.io.ctxDone && !s.b.io.ctxDone
    ensures s.b.io.read == |s.a.io.out| && NeverCancelledFrom(DEMO, s, B, 0)
  {
    hide Reachable, NeverCancelledFrom;
    s := CancelComesEarly();
    LostCancelIsLost(DEMO, s, B, 0);
  }

  lemma CancelComesEarly() returns (s: Sys)
    ensures Reachable(DEMO, s) && HasReq(s.b.srv, 0, Running) && !s.a.io.ctxDone && !s.b.io.ctxDone
    ensures s.b.io.read == |s.a.io.out| && CancelRead(s.b, s.a, 0, None)
  {
    s := CallWaits();
    hide Reachable;
    s := ByCall(DEMO, s, A, CtxEnds(1));
    s := ByCall(DEMO, s, A, SendCancel(1, "deadline"));
    s := ByLink(DEMO, s, A, Write);
    s := ByLink(DEMO, s, B, Read);
    s := ByLink(DEMO, s, B, Read);
    s := ByRequest(DEMO, s, B, Accept(0));
    assert CancelsCall(s.a.io.out[..s.b.io.read][1], 1);
  }

  // ---------------------------------------------------------------- early stream messages

  const OPEN := RequestMsg(2, "", STREAM_REQUEST, OpenStream(1, "Echo", "Feed"), false)
  const OPENING_CALL := Call(Opens(1), "", STREAM_REQUEST, OpenStream(1, "Echo", "Feed"), Waiting, Some(0))
  const CK := Key(ClientSide, 1)
  const SK := Key(ServerSide, 1)
  const FIRST := StreamMsg(1, ServerSide, 1, Data(HELLO))
  const LAST := StreamMsg(1, ServerSide, 2, Close(0, ""))

  lemma OpenRegistered() returns (s: Sys)
    ensures Reachable(DEMO, s) && s.b == IDLE
    ensures s.a == IDLE.(inv := Invokes(2, map[2 := OPENING_CALL.(pc := Registered, sentAt := None)],
                                        map[1 := InvokedAs(2)],
                                 {2}, map[2 := ChanOpen], None, {}, map[]))
  {
    Start(DEMO);
    hide Reachable;
    s := INIT;
    s := ByCall(DEMO, s, A, StartOpen("Echo", "Feed"));
    s := ByCall(DEMO, s, A, OpenInvoke(1));
    s := ByCall(DEMO, s, A, Announce(2));
    s := ByCall(DEMO, s, A, Grant(2));
  }

  /** NewStream at A waits for the response to its request. */
  lemma OpenWaits() returns (s: Sys)
    ensures Reachable(DEMO, s) && s.b == IDLE
    ensures s.a == IDLE.(inv := Invokes(2, map[2 := OPENING_CALL], map[1 := InvokedAs(2)],
                                 {2}, map[2 := ChanOpen], None, {}, map[]),
                         io := IDLE.io.(out := [Request(OPEN)], written := 1))
  {
    s := OpenRegistered();
    hide Reachable;
    s := ByCall(DEMO, s, A, SendRequest(2));
    s := ByCall(DEMO, s, A, Arrive(2));
    s := ByLink(DEMO, s, A, Write);
  }

  /** B has registered the stream, responded and started the handler. */
  lemma OpenAnswered() returns (s: Sys)
    ensures Reachable(DEMO, s)
    ensures s.a == IDLE.(inv := Invokes(2, map[2 := OPENING_CALL], map[1 := InvokedAs(2)],
                                 {2}, map[2 := ChanOpen], None, {}, map[]),
                         io := IDLE.io.(out := [Request(OPEN)], written := 1))
    ensures s.b.io == IDLE.io.(out := [Response(2, Some(StreamReply(1)), "")], written := 1, read := 1)
    ensures s.b.str == Table(map[SK := NewObj(SK, Serving, 0, 0)], {SK}, [])
  {
    s := OpenWaits();
    hide Reachable;
    s := ByLink(DEMO, s, B, Read);
    s := ByRequest(DEMO, s, B, Accept(0));
    s := ByRequest(DEMO, s, B, Respond(0));
    s := ByLink(DEMO, s, B, Write);
  }

  /** The handler has sent one message, and it is on the wire. */
  lemma HandlerSent() returns (s: Sys)
    ensures Reachable(DEMO, s)
    ensures s.a == IDLE.(inv := Invokes(2, map[2 := OPENING_CALL], map[1 := InvokedAs(2)],
                                 {2}, map[2 := ChanOpen], None, {}, map[]),
                         io := IDLE.io.(out := [Request(OPEN)], written := 1))
    ensures s.b.io == IDLE.io.(
              out := [Response(2, Some(StreamReply(1)), ""), StreamPacket(FIRST)], written := 2, read := 1)
    ensures s.b.str == Table(map[SK := NewObj(SK, Serving, 0, 0).(
                                   st := NewStream(1, ServerSide).(sendSeq := 1), sent := [FIRST])], {SK}, [])
  {
    s := OpenAnswered();
    hide Reachable;
    s := ByStream(DEMO, s, B, Send(SK, HELLO));
    s := ByStream(DEMO, s, B, FlushStream(SK));
    s := ByLink(DEMO, s, B, Write);
    assert s.b.str.objs == map[SK := s.b.str.objs[SK]];
    assert s.b.str.objs[SK].sent == [FIRST];
  }

  /** The handler returns nil, and both messages are on the wire. */
  lemma HandlerDone() returns (s: Sys)
    ensures Reachable(DEMO, s)
    ensures s.a == IDLE.(inv := Invokes(2, map[2 := OPENING_CALL], map[1 := InvokedAs(2)],
                                 {2}, map[2 := ChanOpen], None, {}, map[]),
                         io := IDLE.io.(out := [Request(OPEN)], written := 1))
    ensures s.b.io == IDLE.io.(
              out := [Response(2, Some(StreamReply(1)), ""), StreamPacket(FIRST), StreamPacket(LAST)],
              written := 3, read := 1)
    ensures SK in s.b.str.objs && s.b.str.objs[SK].owner.Ending? && Idle(s.b.str.objs[SK])
    ensures s.b.str.objs[SK].sent == [FIRST, LAST]
  {
    s := HandlerSent();
    hide Reachable;
    s := ByStream(DEMO, s, B, HandlerEnds(SK, WithNil));
    s := ByStream(DEMO, s, B, FinishClose(SK));
    s := ByStream(DEMO, s, B, FlushStream(SK));
    s := ByLink(DEMO, s, B, Write);
  }

  /** A's reader takes the response and both stream messages before NewStream goes on. */
  lemma MessagesOvertakeNewStream() returns (s: Sys)
    ensures Reachable(DEMO, s)
    ensures s.a.inv == Invokes(2, map[2 := OPENING_CALL], map[1 := InvokedAs(2)], {2}, map[2 := ChanOpen], None, {},
                               map[0 := Resp(2, Some(StreamReply(1)), "", Arrived)])
    ensures s.a.str == Table(map[], {}, [StreamPacket(FIRST), StreamPacket(LAST)])
    ensures s.a.io == IDLE.io.(out := [Request(OPEN)], written := 1, read := 3)
    ensures s.b.io.out == [Response(2, Some(StreamReply(1)), ""), StreamPacket(FIRST), StreamPacket(LAST)]
    ensures SK in s.b.str.objs && s.b.str.objs[SK].owner.Ending? && Idle(s.b.str.objs[SK])
    ensures s.b.str.objs[SK].sent == [FIRST, LAST]
  {
    s := HandlerDone();
    hide Reachable;
    s := ByLink(DEMO, s, A, Read);
    s := ByLink(DEMO, s, A, Read);
    s := ByLink(DEMO, s, A, Read);
  }

  /** The response is handed over to the Invoke inside NewStream. */
  lemma ResponseTaken() returns (s: Sys)
    ensures Reachable(DEMO, s)
    ensures s.a.inv == Invokes(2, map[2 := OPENING_CALL.(pc := Leaving(FromChannel(0, Some(StreamReply(1)), "")))],
                               map[1 := InvokedAs(2)], {2}, map[2 := ChanOpen], None, {},
                               map[0 := Resp(2, Some(StreamReply(1)), "", Delivered)])
    ensures s.a.str == Table(map[], {}, [StreamPacket(FIRST), StreamPacket(LAST)])
    ensures s.a.io == IDLE.io.(out := [Request(OPEN)], written := 1, read := 3)
    ensures s.b.io.out == [Response(2, Some(StreamReply(1)), ""), StreamPacket(FIRST), StreamPacket(LAST)]
    ensures SK in s.b.str.objs && s.b.str.objs[SK].owner.Ending? && Idle(s.b.str.objs[SK])
    ensures s.b.str.objs[SK].sent == [FIRST, LAST]
  {
    s := MessagesOvertakeNewStream();
    hide Reachable;
    s := ByCall(DEMO, s, A, LockResponse(0));
    s := ByCall(DEMO, s, A, HandOver(0));
  }

  /** The Invoke inside NewStream has returned; the stream is not registered yet. */
  lemma NewStreamResumes() returns (s: Sys)
    ensures Reachable(DEMO, s)
    ensures CanRegister(s.a.inv, s.a.str, 1)
    ensures s.a.str == Table(map[], {}, [StreamPacket(FIRST), StreamPacket(LAST)])
    ensures s.a.io == IDLE.io.(out := [Request(OPEN)], written := 1, read := 3)
    ensures s.b.io.out == [Response(2, Some(StreamReply(1)), ""), StreamPacket(FIRST), StreamPacket(LAST)]
    ensures SK in s.b.str.objs && s.b.str.objs[SK].owner.Ending? && Idle(s.b.str.objs[SK])
    ensures s.b.str.objs[SK].sent == [FIRST, LAST]
  {
    s := ResponseTaken();
    hide Reachable;
    s := ByCall(DEMO, s, A, Announce(2));
    s := ByCall(DEMO, s, A, Grant(2));
  }

  /** The lost prefix is not always empty, and can be everything: here the client end never
      learns that the server end sent a message and closed. It stays open, with nothing queued
      and nothing to come, in every continuation in which its user does not close it and the
      connection is not cleaned up; RecvMsg on it never returns. */
  lemma PrefixIsLost() returns (s: Sys)
    ensures Reachable(DEMO, s) && SK in s.b.str.objs && s.b.str.objs[SK].sent == [FIRST, LAST]
    ensures Forgotten(s.a, s.b, 1) && s.a.str.objs[CK].received == [] && s.a.io.read == |s.b.io.out|
    ensures ForgottenFrom(DEMO, s, A, 1)
  {
    hide Reachable, Forgotten, Fine, ForgottenFrom;
    s := PrefixLost();
    ReachableFine(DEMO, s);
    ForgottenStays(DEMO, s, A, 1);
  }

  lemma PrefixLost() returns (s: Sys)
    ensures Reachable(DEMO, s) && SK in s.b.str.objs && s.b.str.objs[SK].sent == [FIRST, LAST]
    ensures Forgotten(s.a, s.b, 1) && s.a.str.objs[CK].received == [] && s.a.io.read == |s.b.io.out|
  {
    s := NewStreamResumes();
    hide Reachable;
    s := ByStream(DEMO, s, A, RegisterStream(1));
    assert s.b.io.out[3..] == [];
  }

  /** A NewStream that resumes after the connection has closed its streams still registers one,
      and nothing closes it: it stays open in every continuation in which its user does not
      close it, and RecvMsg on it never returns. */
  lemma LateStreamStaysOpen() returns (s: Sys)
    ensures Reachable(DEMO, s) && Orphan(s.a, CK)
    ensures OrphanedFrom(DEMO, s, A, CK)
  {
    hide Reachable, Orphan, OrphanedFrom;
    s := LateStream();
    OrphansStay(DEMO, s, A, CK);
  }

  lemma LateStream() returns (s: Sys)
    ensures Reachable(DEMO, s) && Orphan(s.a, CK)
  {
    s := NewStreamResumes();
    hide Reachable;
    s := ByLink(DEMO, s, A, StopReader);
    s := ByLink(DEMO, s, A, Cleanup);
    s := ByStream(DEMO, s, A, RegisterStream(1));
  }

  /** The same at the serving endpoint: a request to open a stream that was read before the reader
      ended, and is accepted after the connection has closed its streams, registers a server end
      that nothing closes. Its handler runs, and RecvMsg never returns to it, in every continuation
      in which it neither closes the stream nor returns. */
  lemma LateRequestStaysOpen() returns (s: Sys)
    ensures Reachable(DEMO, s) && Orphan(s.b, SK) && s.b.io.ctxDone && s.b.str.objs[SK].owner.Serving?
    ensures OrphanedFrom(DEMO, s, B, SK)
  {
    hide Reachable, Orphan, OrphanedFrom;
    s := LateRequest();
    OrphansStay(DEMO, s, B, SK);
  }

  lemma LateRequest() returns (s: Sys)
    ensures Reachable(DEMO, s) && Orphan(s.b, SK) && s.b.io.ctxDone && s.b.str.objs[SK].owner.Serving?
  {
    s := OpenWaits();
    hide Reachable;
    s := ByLink(DEMO, s, B, Read);
    s := ByLink(DEMO, s, B, StopReader);
    s := ByLink(DEMO, s, B, Cleanup);
    s := ByRequest(DEMO, s, B, Accept(0));
    s := ByLink(DEMO, s, B, EndCtx);
    s := ByRequest(DEMO, s, B, RespondFails(0));
  }
}
