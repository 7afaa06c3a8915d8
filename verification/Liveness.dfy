/** With the connection open, no context ending, and every call resolvable at the peer: a state
    with a pending call always has a step of the library itself to take, even when the wire
    holds only one unread packet. The reader never waits for the writer or for invokesMu
    (xrpc/conn.go:217-252, 287-332, 455-471 and 584-654). */
module Liveness {
  import opened Packets
  import opened Protocol
  import opened CallInvariants
  import opened WireInvariants
  import opened StreamInvariants
  import opened Invariants
  import opened Deadlock

  // ---------------------------------------------------------------- undisturbed runs

  /** The peer serves what the request asks for, and can decode it. */
  predicate Resolvable(c: Config, q: RequestMsg) {
    if q.service == "" then ResolvesStream(c, q)
    else ResolvesUnary(c, q) && Decodes(c, q.input)
  }

  predicate CanOpen(c: Config, service: string, methodName: string) {
    service in c.services && methodName in c.services[service].streams
  }

  /** A step that neither ends a context or the connection, nor starts a call the peer does not
      serve. */
  predicate Undisturbed(peer: Config, op: Op) {
    match op
    case OfCall(StartCall(service, methodName, any, notify)) =>
      Resolvable(peer, RequestMsg(0, service, methodName, Message(any), notify))
    case OfCall(StartOpen(service, methodName)) => CanOpen(peer, service, methodName)
    case OfCall(CtxEnds(_)) => false
    case OfCall(ServeEnds(_)) => false
    case OfLink(EndCtx) => false
    case OfLink(StopReader) => false
    case OfLink(StopWriter) => false
    case OfLink(Cleanup) => false
    case _ => true
  }

  predicate Open(io: Io) {
    !io.ctxDone && io.reading && io.writing
  }

  ghost predicate AllResolvable(peer: Config, v: Invokes) {
    && (forall id | id in v.calls :: Resolvable(peer, RequestOf(id, v.calls[id])))
    && (forall sid | sid in v.opens && v.opens[sid].NeedInvoke? ::
          CanOpen(peer, v.opens[sid].service, v.opens[sid].methodName))
  }

  /** A finished request has its response, unless it was a notification. */
  predicate DoneMeansAnswered(q: Req) {
    (q.pc.Removing? || q.pc.Finished?) && !q.req.isNotification ==> q.answeredAt.Some?
  }

  ghost predicate AllAnswered(r: Requests) {
    forall at | at in r.reqs :: DoneMeansAnswered(r.reqs[at])
  }

  /** No response was found to have no call. */
  ghost predicate AllKnown(v: Invokes) {
    forall at | at in v.resps :: !v.resps[at].pc.Unknown?
  }

  ghost predicate Healthy(peer: Config, e: Endpoint) {
    Open(e.io) && NoneLeft(e.inv) && AllResolvable(peer, e.inv) && AllAnswered(e.srv) && AllKnown(e.inv)
  }

  // ---------------------------------------------------------------- kept by undisturbed steps

  lemma ResolvableKept(peer: Config, v: Invokes, ctxDone: bool, pos: nat, op: CallOp)
    requires AllResolvable(peer, v) && CallGuard(v, ctxDone, op) && Undisturbed(peer, OfCall(op))
    ensures AllResolvable(peer, CallEffect(v, ctxDone, pos, op))
  {
    var w := CallEffect(v, ctxDone, pos, op);
    forall id | id in w.calls ensures Resolvable(peer, RequestOf(id, w.calls[id])) {
      OneResolvable(peer, v, ctxDone, pos, op, id);
    }
  }

  lemma OneResolvable(peer: Config, v: Invokes, ctxDone: bool, pos: nat, op: CallOp, id: nat)
    requires CallGuard(v, ctxDone, op) && Undisturbed(peer, OfCall(op)) && id in CallEffect(v, ctxDone, pos, op).calls
    requires id in v.calls ==> Resolvable(peer, RequestOf(id, v.calls[id]))
    requires forall sid | sid in v.opens && v.opens[sid].NeedInvoke? ::
               CanOpen(peer, v.opens[sid].service, v.opens[sid].methodName)
    ensures Resolvable(peer, RequestOf(id, CallEffect(v, ctxDone, pos, op).calls[id]))
  {
    if id in v.calls && !(op.OpenInvoke? || op.StartCall?) {
      assert RequestOf(id, CallEffect(v, ctxDone, pos, op).calls[id]) == RequestOf(id, v.calls[id]);
    }
  }

  /** The request a response answers, and the call it came from. */
  lemma ResponsesRequest(e: Endpoint, p: Endpoint, at: nat)
    requires Good(e, p) && at < |p.io.out| && p.io.out[at].Response?
    ensures var id := p.io.out[at].id;
            id in e.inv.calls && !e.inv.calls[id].kind.Notify? && e.inv.calls[id].sentAt.Some? &&
            e.inv.calls[id].sentAt.value in p.srv.reqs &&
            p.srv.reqs[e.inv.calls[id].sentAt.value].answeredAt == Some(at)
  {
    assert AnswerFits(p.srv, p.io.out, at);
    var k := p.srv.answeredBy[at];
    assert ReqFits(p.srv, p.io.out, k);
    RequestIsFromCall(e, p, k);
    assert CallFits(e.inv, p.io.out[at].id);
  }

  lemma SentCallIsPast(e: Endpoint, id: nat)
    requires Local(e) && id in e.inv.calls && e.inv.calls[id].sentAt.Some? && !e.inv.calls[id].kind.Notify?
    ensures !NotSentYet(e.inv.calls[id].pc) && (id in e.inv.invokes <==> InWindow(e.inv.calls[id].pc))
  {
    assert SentFits(e.inv, e.io.out, id) && CallFits(e.inv, id);
  }

  /** While no call gives up, a response that is not delivered yet finds its call waiting. */
  lemma ResponseFindsCall(e: Endpoint, p: Endpoint, at: nat)
    requires Good(e, p) && NoneLeft(e.inv) && at in e.inv.resps && !e.inv.resps[at].pc.Delivered?
    ensures AboutToReceive(e.inv, e.inv.resps[at].id) && e.inv.resps[at].id in e.inv.invokes
  {
    hide Good, Local, NoneLeft, NotSentYet, InWindow, LeftThroughDone, RetOf, AboutToReceive;
    var v, id := e.inv, e.inv.resps[at].id;
    RespPacket(e, p, at);
    ResponsesRequest(e, p, at);
    SentCallIsPast(e, id);
    NoneLeftHere(v, id);
    var ret := RetOf(v.calls[id].pc);
    if ret.Some? {
      EndedThroughChannel(e, id);
      ResultIsFromHandler(e, p, id);
      GotIsDelivered(e, p, id);
    } else {
      StillOnItsWay(v, id);
    }
  }

  /** A call that is sent, has not ended and does not give up is about to receive. */
  lemma StillOnItsWay(v: Invokes, id: nat)
    requires id in v.calls && !NotSentYet(v.calls[id].pc) && RetOf(v.calls[id].pc).None? && !LeftThroughDone(v, id)
    ensures AboutToReceive(v, id) && InWindow(v.calls[id].pc)
  {
  }

  /** While no call gives up, a call that is no notification ends through its channel. */
  lemma EndedThroughChannel(e: Endpoint, id: nat)
    requires Local(e) && NoneLeft(e.inv) && id in e.inv.calls && !e.inv.calls[id].kind.Notify?
    requires RetOf(e.inv.calls[id].pc).Some?
    ensures RetOf(e.inv.calls[id].pc).value.FromChannel?
  {
    assert GotFits(e.inv, id);
    NoneLeftHere(e.inv, id);
  }

  lemma RespPacket(e: Endpoint, p: Endpoint, at: nat)
    requires Good(e, p) && at in e.inv.resps
    ensures Local(e) && at < |p.io.out| && p.io.out[at].Response? && p.io.out[at].id == e.inv.resps[at].id
  {
  }

  lemma NoneLeftHere(v: Invokes, id: nat)
    requires NoneLeft(v) && id in v.calls
    ensures !LeftThroughDone(v, id) && v.calls[id].pc != Returned(Abandoned)
  {
  }

  lemma GotIsDelivered(e: Endpoint, p: Endpoint, id: nat)
    requires Good(e, p) && id in e.inv.calls
    requires RetOf(e.inv.calls[id].pc).Some? && RetOf(e.inv.calls[id].pc).value.FromChannel?
    ensures var at := RetOf(e.inv.calls[id].pc).value.at; at in e.inv.resps && e.inv.resps[at].pc.Delivered?
  {
    assert GotFits(e.inv, id);
  }

  lemma KnownAfter(v: Invokes, ctxDone: bool, pos: nat, op: CallOp)
    requires AllKnown(v) && CallGuard(v, ctxDone, op)
    requires op.LockResponse? ==> v.resps[op.at].id in v.invokes
    ensures AllKnown(CallEffect(v, ctxDone, pos, op))
  {
    var w := CallEffect(v, ctxDone, pos, op);
    assert forall at | at in w.resps :: at in v.resps && (v.resps[at].pc.Unknown? <==> w.resps[at].pc.Unknown?);
  }

  lemma KnownKept(e: Endpoint, p: Endpoint, op: CallOp)
    requires Good(e, p) && NoneLeft(e.inv) && AllKnown(e.inv) && CallGuard(e.inv, e.io.ctxDone, op)
    ensures AllKnown(CallEffect(e.inv, e.io.ctxDone, |e.io.out|, op))
  {
    hide Good, NoneLeft, AllKnown;
    if op.LockResponse? { ResponseFindsCall(e, p, op.at); }
    KnownAfter(e.inv, e.io.ctxDone, |e.io.out|, op);
  }

  lemma AnsweredKept(c: Config, e: Endpoint, p: Endpoint, op: RequestOp)
    requires Good(e, p) && AllResolvable(c, p.inv) && AllAnswered(e.srv) && !e.io.ctxDone
    requires RequestGuard(c, e.srv, e.io.ctxDone, op)
    ensures AllAnswered(RequestEffect(c, e.srv, e.io.ctxDone, |e.io.out|, op))
  {
    var r, at := e.srv, op.at;
    assert at in r.reqs;
    RequestIsFromCall(p, e, at);
    assert Resolvable(c, r.reqs[at].req);
    assert ReqFits(r, e.io.out, at);
    if r.reqs[at].pc.Ran? { NotMarked(e, at); }
    hide Good, AllResolvable;
    var w := RequestEffect(c, r, e.io.ctxDone, |e.io.out|, op);
    forall k | k in w.reqs ensures DoneMeansAnswered(w.reqs[k]) {
      assert k in r.reqs && DoneMeansAnswered(r.reqs[k]);
      OneAnswered(c, r, e.io.out, op, k);
    }
  }

  lemma OneAnswered(c: Config, r: Requests, out: seq<Packet>, op: RequestOp, k: nat)
    requires RequestGuard(c, r, false, op) && k in r.reqs && DoneMeansAnswered(r.reqs[k])
    requires DoneMeansAnswered(r.reqs[op.at]) && Resolvable(c, r.reqs[op.at].req) && ReqFits(r, out, op.at)
    requires r.reqs[op.at].pc.Ran? ==> !MarkedCancelled(r, r.reqs[op.at].req.id)
    ensures k in RequestEffect(c, r, false, |out|, op).reqs
    ensures DoneMeansAnswered(RequestEffect(c, r, false, |out|, op).reqs[k])
  {
  }

  lemma NotMarked(e: Endpoint, at: nat)
    requires Local(e) && at in e.srv.reqs
    ensures !MarkedCancelled(e.srv, e.srv.reqs[at].req.id)
  {
    var id := e.srv.reqs[at].req.id;
    if id in e.srv.cancels { assert EntryFits(e.srv, id); }
  }

  lemma LinkKeepsHealthy(peer: Config, cap: nat, e: Endpoint, io: Io, op: LinkOp)
    requires Healthy(peer, e) && LinkGuard(cap, e.io, io, op) && Undisturbed(peer, OfLink(op))
    ensures Healthy(peer, LinkEffect(cap, e, io, op))
  {
    hide AllAnswered, AllKnown, NoneLeft, AllResolvable;
    if op.Read? { ReadKeepsHealthy(peer, e, io.out[e.io.read]); }
  }

  lemma ReadKeepsHealthy(peer: Config, e: Endpoint, p: Packet)
    requires Healthy(peer, e)
    ensures Healthy(peer, DoRead(e, p))
  {
    hide Resolvable, CanOpen;
    if p.CtxCancel? {
      var r, r' := e.srv, DoCancel(e.srv, p.id, p.cause);
      forall k | k in r'.reqs ensures DoneMeansAnswered(r'.reqs[k]) {
        assert k in r.reqs && DoneMeansAnswered(r.reqs[k]);
      }
    }
  }

  lemma StepKeepsHealthy(own: Config, peer: Config, cap: nat, e: Endpoint, p: Endpoint, op: Op)
    requires Good(e, p) && Healthy(peer, e) && Healthy(own, p)
    requires Guard(own, cap, e, p.io, op) && Undisturbed(peer, op)
    ensures Healthy(peer, Effect(own, cap, e, p.io, op))
  {
    hide Good, NoneLeft, AllResolvable, AllAnswered, AllKnown;
    match op
    case OfCall(o) =>
      NoneLeaves(own, cap, e, p.io, op);
      ResolvableKept(peer, e.inv, e.io.ctxDone, |e.io.out|, o);
      KnownKept(e, p, o);
    case OfRequest(o) => AnsweredKept(own, e, p, o);
    case OfStream(o) =>
    case OfLink(o) => LinkKeepsHealthy(peer, cap, e, p.io, o);
  }

  ghost predicate HealthySys(w: World, s: Sys) {
    Healthy(w.b, s.a) && Healthy(w.a, s.b)
  }

  /** All steps of the run are undisturbed. */
  predicate UndisturbedRun(w: World, acts: seq<Action>) {
    forall a | a in acts :: Undisturbed(w.Of(PeerOf(a.x)), a.op)
  }

  lemma {:induction false} RunKeepsHealthy(w: World, s: Sys, acts: seq<Action>)
    requires Inv(s) && HealthySys(w, s) && Run(w, s, acts).Some? && UndisturbedRun(w, acts)
    ensures HealthySys(w, Run(w, s, acts).value)
    decreases |acts|
  {
    hide Local, Shared, Healthy;
    if acts != [] {
      var act := acts[0];
      assert act in acts && forall a | a in acts[1..] :: a in acts;
      StepKeepsInv(w, s, act);
      StepKeepsHealthy(w.Of(act.x), w.Of(PeerOf(act.x)), w.cap, s.Of(act.x), s.Of(PeerOf(act.x)), act.op);
      RunKeepsHealthy(w, Step(w, s, act), acts[1..]);
    }
  }

  // ---------------------------------------------------------------- a step to take

  /** Steps of the library's own goroutines, and of handlers returning. */
  predicate Internal(op: Op) {
    match op
    case OfCall(o) =>
      o.OpenInvoke? || o.Announce? || o.Grant? || o.SendRequest? || o.Arrive? || o.LockResponse? || o.HandOver?
    case OfRequest(o) => o.Accept? || o.HandlerReturns? || o.Decide? || o.Respond? || o.RemoveCancel?
    case OfStream(o) => o.RegisterStream? || o.FinishClose? || o.FlushStream? || o.EndStream?
    case OfLink(o) => o.Read? || o.Write?
  }

  /** An internal step of `e` or of its peer that can run now. */
  datatype Choice = Mine(op: Op) | Theirs(op: Op)

  predicate CanTake(own: Config, peer: Config, cap: nat, e: Endpoint, p: Endpoint, ch: Choice) {
    Internal(ch.op) &&
    match ch
    case Mine(op) => Guard(own, cap, e, p.io, op)
    case Theirs(op) => Guard(peer, cap, p, e.io, op)
  }

  lemma TakeCall(own: Config, peer: Config, cap: nat, e: Endpoint, p: Endpoint, o: CallOp) returns (ch: Choice)
    requires Internal(OfCall(o)) && CallGuard(e.inv, e.io.ctxDone, o) && CanEmit(e.io, CallEmits(e.inv, o))
    ensures CanTake(own, peer, cap, e, p, ch)
  {
    ch := Mine(OfCall(o));
  }

  lemma TakeRequest(own: Config, peer: Config, cap: nat, e: Endpoint, p: Endpoint, o: RequestOp) returns (ch: Choice)
    requires Internal(OfRequest(o)) && RequestGuard(own, e.srv, e.io.ctxDone, o)
    requires CanEmit(e.io, RequestEmits(e.srv, o))
    ensures CanTake(own, peer, cap, e, p, ch)
  {
    ch := Mine(OfRequest(o));
  }

  /** What the peer can take, seen from this side. */
  lemma Swap(own: Config, peer: Config, cap: nat, e: Endpoint, p: Endpoint, ch: Choice) returns (swapped: Choice)
    requires CanTake(peer, own, cap, p, e, ch)
    ensures CanTake(own, peer, cap, e, p, swapped)
  {
    swapped := if ch.Mine? then Theirs(ch.op) else Mine(ch.op);
  }

  /** A packet that was not read yet moves on. */
  lemma UnreadMoves(own: Config, peer: Config, cap: nat, e: Endpoint, p: Endpoint, i: nat) returns (ch: Choice)
    requires cap >= 1 && Open(e.io) && Open(p.io) && WireOk(p.io, e.io)
    requires p.io.read <= i < |e.io.out|
    ensures CanTake(own, peer, cap, e, p, ch)
  {
    ch := if p.io.read < e.io.written then Theirs(OfLink(Read)) else Mine(OfLink(Write));
  }

  /** A busy writer can write, or its peer can read. */
  lemma WriterMoves(own: Config, peer: Config, cap: nat, e: Endpoint, p: Endpoint) returns (ch: Choice)
    requires cap >= 1 && Open(e.io) && Open(p.io) && WireOk(p.io, e.io) && e.io.written != |e.io.out|
    ensures CanTake(own, peer, cap, e, p, ch)
  {
    ch := if e.io.written < p.io.read + cap then Mine(OfLink(Write)) else Theirs(OfLink(Read));
  }

  lemma AnnouncedAtLock(e: Endpoint)
    requires Local(e) && e.inv.announced.Some?
    ensures e.inv.announced.value in e.inv.calls && AtLock(e.inv.calls[e.inv.announced.value].pc)
    ensures forall at | at in e.inv.readers :: Sends(e.inv, at)
  {
    assert CallFits(e.inv, e.inv.announced.value);
  }

  /** When invokesMu is announced, its holder or a response being sent moves. */
  lemma LockMoves(own: Config, peer: Config, cap: nat, e: Endpoint, p: Endpoint) returns (ch: Choice)
    requires Good(e, p) && NoneLeft(e.inv) && e.inv.announced.Some?
    ensures CanTake(own, peer, cap, e, p, ch)
  {
    AnnouncedAtLock(e);
    hide CanTake, Local, Shared, NoneLeft;
    if e.inv.readers == {} {
      ch := TakeCall(own, peer, cap, e, p, Grant(e.inv.announced.value));
    } else {
      var at :| at in e.inv.readers;
      ResponseFindsCall(e, p, at);
      var id := e.inv.resps[at].id;
      if e.inv.calls[id].pc.Handed? { ch := TakeCall(own, peer, cap, e, p, Arrive(id)); }
      else { ch := TakeCall(own, peer, cap, e, p, HandOver(at)); }
    }
  }

  lemma RequestState(e: Endpoint, p: Endpoint, at: nat)
    requires Good(e, p) && at in e.srv.reqs
    ensures ReqFits(e.srv, e.io.out, at) && WireOk(p.io, e.io) && WireOk(e.io, p.io)
  {
  }

  /** A request that was read and not answered moves on. */
  lemma RequestMoves(own: Config, peer: Config, cap: nat, e: Endpoint, p: Endpoint, at: nat) returns (ch: Choice)
    requires cap >= 1 && Good(e, p) && Open(e.io) && Open(p.io)
    requires at in e.srv.reqs && Resolvable(own, e.srv.reqs[at].req) && e.srv.reqs[at].answeredAt.None?
    requires DoneMeansAnswered(e.srv.reqs[at]) && !e.srv.reqs[at].req.isNotification
    ensures CanTake(own, peer, cap, e, p, ch)
  {
    RequestState(e, p, at);
    hide CanTake, Good;
    match e.srv.reqs[at].pc {
      case Started => ch := TakeRequest(own, peer, cap, e, p, Accept(at));
      case Running => ch := TakeRequest(own, peer, cap, e, p, HandlerReturns(at, Failed("")));
      case Ran => ch := TakeRequest(own, peer, cap, e, p, Decide(at));
      case _ =>
        if e.io.written == |e.io.out| { ch := TakeRequest(own, peer, cap, e, p, Respond(at)); }
        else { ch := WriterMoves(own, peer, cap, e, p); }
    }
  }

  lemma UndeliveredToWaiting(e: Endpoint, at: nat)
    requires Local(e) && at in e.inv.resps && HasCall(e.inv, e.inv.resps[at].id, Waiting)
    ensures !e.inv.resps[at].pc.Delivered?
  {
    assert DeliveredFits(e.inv, at);
  }

  /** A response that was read and belongs to a waiting call moves on. */
  lemma ResponseMoves(own: Config, peer: Config, cap: nat, e: Endpoint, p: Endpoint, at: nat) returns (ch: Choice)
    requires Good(e, p) && NoneLeft(e.inv) && AllKnown(e.inv)
    requires at in e.inv.resps && HasCall(e.inv, e.inv.resps[at].id, Waiting)
    ensures CanTake(own, peer, cap, e, p, ch)
  {
    assert !e.inv.resps[at].pc.Unknown?;
    hide CanTake, Local, Shared, NoneLeft;
    UndeliveredToWaiting(e, at);
    if e.inv.resps[at].pc.Sending? {
      ch := TakeCall(own, peer, cap, e, p, HandOver(at));
    } else if e.inv.announced.None? {
      ch := TakeCall(own, peer, cap, e, p, LockResponse(at));
    } else {
      ch := LockMoves(own, peer, cap, e, p);
    }
  }

  /** Where the request of a waiting call is: unread, being served, or answered. */
  lemma WaitingRequest(e: Endpoint, p: Endpoint, id: nat)
    requires Good(e, p) && HasCall(e.inv, id, Waiting)
    ensures var c := e.inv.calls[id];
            && !c.kind.Notify? && c.sentAt.Some? && c.sentAt.value < |e.io.out|
            && (c.sentAt.value < p.io.read ==>
                  c.sentAt.value in p.srv.reqs && var q := p.srv.reqs[c.sentAt.value];
                  && q.req == RequestOf(id, c)
                  && (q.answeredAt.Some? ==>
                        && q.answeredAt.value < |p.io.out|
                        && (q.answeredAt.value < e.io.read ==>
                              q.answeredAt.value in e.inv.resps && e.inv.resps[q.answeredAt.value].id == id)))
  {
    assert SentFits(e.inv, e.io.out, id) && CallFits(e.inv, id);
    var i := e.inv.calls[id].sentAt.value;
    assert ReqsOk(p.srv, p.io.read, e.io.out) && RespsOk(e.inv, e.io.read, p.io.out);
    if i < p.io.read { assert ReqFits(p.srv, p.io.out, i); }
  }

  lemma WaitingMoves(own: Config, peer: Config, cap: nat, e: Endpoint, p: Endpoint, id: nat) returns (ch: Choice)
    requires cap >= 1 && Good(e, p) && Healthy(peer, e) && Healthy(own, p) && HasCall(e.inv, id, Waiting)
    ensures CanTake(own, peer, cap, e, p, ch)
  {
    assert WireOk(p.io, e.io) && WireOk(e.io, p.io);
    hide CanTake, Local, Shared, NoneLeft, AllKnown, Resolvable;
    WaitingRequest(e, p, id);
    var i := e.inv.calls[id].sentAt.value;
    if p.io.read <= i {
      ch := UnreadMoves(own, peer, cap, e, p, i);
    } else if p.srv.reqs[i].answeredAt.None? {
      ch := RequestMoves(peer, own, cap, p, e, i);
      ch := Swap(own, peer, cap, e, p, ch);
    } else if e.io.read <= p.srv.reqs[i].answeredAt.value {
      ch := UnreadMoves(peer, own, cap, p, e, p.srv.reqs[i].answeredAt.value);
      ch := Swap(own, peer, cap, e, p, ch);
    } else {
      ch := ResponseMoves(own, peer, cap, e, p, p.srv.reqs[i].answeredAt.value);
    }
  }

  lemma PendingState(e: Endpoint, id: nat)
    requires Local(e) && id in e.inv.calls
    ensures e.inv.calls[id].kind.Notify? ==> e.inv.calls[id].pc.Fresh? || e.inv.calls[id].pc.Returned?
    ensures AtLock(e.inv.calls[id].pc) ==> e.inv.announced.Some?
  {
    assert CallFits(e.inv, id);
  }

  /** Every pending call has a step to take somewhere in the system. */
  lemma PendingMoves(own: Config, peer: Config, cap: nat, e: Endpoint, p: Endpoint, id: nat) returns (ch: Choice)
    requires cap >= 1 && Good(e, p) && Healthy(peer, e) && Healthy(own, p)
    requires id in e.inv.calls && !e.inv.calls[id].pc.Returned?
    ensures CanTake(own, peer, cap, e, p, ch)
  {
    assert !LeftThroughDone(e.inv, id) && WireOk(p.io, e.io);
    hide CanTake, Local, Shared, NoneLeft, AllKnown, AllAnswered, AllResolvable;
    PendingState(e, id);
    var v := e.inv;
    if v.calls[id].pc.Waiting? {
      ch := WaitingMoves(own, peer, cap, e, p, id);
    } else if v.calls[id].pc.Handed? {
      ch := TakeCall(own, peer, cap, e, p, Arrive(id));
    } else if CanSendRequest(v, id) {
      if e.io.written == |e.io.out| { ch := TakeCall(own, peer, cap, e, p, SendRequest(id)); }
      else { ch := WriterMoves(own, peer, cap, e, p); }
    } else if v.announced.None? {
      ch := TakeCall(own, peer, cap, e, p, Announce(id));
    } else {
      ch := LockMoves(own, peer, cap, e, p);
    }
  }
}
