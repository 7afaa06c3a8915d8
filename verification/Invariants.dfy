/** The invariant of the whole system, that every step of either endpoint keeps it, and that
    it therefore holds in every reachable state. */
module Invariants {
  import opened Packets
  import opened Streams
  import opened Protocol
  import opened CallInvariants
  import opened WireInvariants
  import opened StreamInvariants

  // ---------------------------------------------------------------- streams and their requests

  /** A stream request that got as far as a response has registered its stream. */
  predicate OpenerFits(r: Requests, t: Table, at: nat)
    requires at in r.reqs
  {
    var q := r.reqs[at];
    q.req.service == "" && q.req.input.OpenStream? && (q.pc.Responding? || q.answeredAt.Some?) ==>
      var k := Key(ServerSide, q.req.input.streamId);
      k in t.objs && t.objs[k].creator == at
  }

  predicate CreatorFits(r: Requests, t: Table, k: Key)
    requires k in t.objs
  {
    k.side.ServerSide? ==>
      var at := t.objs[k].creator;
      at in r.reqs && !r.reqs[at].pc.Started? && r.reqs[at].req.service == "" &&
      r.reqs[at].req.input.OpenStream? && r.reqs[at].req.input.streamId == k.id
  }

  ghost predicate ServerStreamsOk(r: Requests, t: Table) {
    && (forall at | at in r.reqs :: OpenerFits(r, t, at))
    && (forall k | k in t.objs :: CreatorFits(r, t, k))
  }

  predicate ClientStreamFits(v: Invokes, k: Key) {
    k.side.ClientSide? ==>
      k.id in v.opens && v.opens[k.id].InvokedAs? && v.opens[k.id].rid in v.calls &&
      Succeeded(v.calls[v.opens[k.id].rid].pc)
  }

  /** NewStream registers a stream only after its Invoke returned nil. */
  ghost predicate ClientStreamsOk(v: Invokes, t: Table) {
    forall k | k in t.objs :: ClientStreamFits(v, k)
  }

  // ---------------------------------------------------------------- the invariant

  ghost predicate Local(e: Endpoint) {
    && CallsOk(e.inv)
    && IssuedOk(e.inv, e.io.out)
    && ResultsOk(e.inv)
    && AnswersOk(e.srv, e.io.out)
    && CancelsOk(e.srv)
    && TableOk(e.str, e.io.out, e.io.ctxDone)
    && ServerStreamsOk(e.srv, e.str)
    && ClientStreamsOk(e.inv, e.str)
  }

  predicate WireOk(io: Io, peer: Io) {
    io.read <= peer.written <= |peer.out| <= peer.written + 1
  }

  /** What an endpoint has made of the packets its peer wrote. */
  ghost predicate Shared(e: Endpoint, peer: Io) {
    && WireOk(e.io, peer)
    && RespsOk(e.inv, e.io.read, peer.out)
    && ReqsOk(e.srv, e.io.read, peer.out)
    && TakenOk(e.str, peer.out[..e.io.read])
  }

  ghost predicate Good(e: Endpoint, p: Endpoint) {
    Local(e) && Local(p) && Shared(e, p.io) && Shared(p, e.io)
  }

  ghost predicate Inv(s: Sys) {
    Good(s.a, s.b)
  }

  // ---------------------------------------------------------------- consequences across the wire

  lemma IdsAreUnique(e: Endpoint, p: Endpoint)
    requires Good(e, p)
    ensures UniqueIds(e.srv)
  {
    forall k, l | k in e.srv.reqs && l in e.srv.reqs && e.srv.reqs[k].req.id == e.srv.reqs[l].req.id
      ensures k == l
    {
      assert IssuedFits(p.inv, p.io.out, k) && IssuedFits(p.inv, p.io.out, l);
    }
  }

  /** The request a processRequest goroutine has is the one its peer's call sent. */
  lemma RequestIsFromCall(e: Endpoint, p: Endpoint, at: nat)
    requires Good(e, p) && at in p.srv.reqs
    ensures var id := p.srv.reqs[at].req.id;
            id in e.inv.calls && e.inv.calls[id].sentAt == Some(at) &&
            p.srv.reqs[at].req == RequestOf(id, e.inv.calls[id])
  {
    assert IssuedFits(e.inv, e.io.out, at);
  }

  /** A call that ended through its channel was answered by the goroutine of its own request. */
  lemma ResultIsFromHandler(e: Endpoint, p: Endpoint, id: nat)
    requires Good(e, p) && id in e.inv.calls
    requires RetOf(e.inv.calls[id].pc).Some? && RetOf(e.inv.calls[id].pc).value.FromChannel?
    ensures var c := e.inv.calls[id]; var ret := RetOf(c.pc).value;
            && c.sentAt.Some? && c.sentAt.value in p.srv.reqs
            && var q := p.srv.reqs[c.sentAt.value];
               && q.req == RequestOf(id, c)
               && q.answeredAt == Some(ret.at) && Answers(q, ret.out, ret.error)
  {
    var ret := RetOf(e.inv.calls[id].pc).value;
    assert GotFits(e.inv, id);
    assert p.io.out[ret.at] == Response(id, ret.out, ret.error);
    assert AnswerFits(p.srv, p.io.out, ret.at);
    var at := p.srv.answeredBy[ret.at];
    assert ReqFits(p.srv, p.io.out, at);
    RequestIsFromCall(e, p, at);
  }

  /** Whoever has the client end of a stream has a peer that registered the server end. */
  lemma ClientHasServer(e: Endpoint, p: Endpoint, sid: nat)
    requires Good(e, p) && Key(ClientSide, sid) in e.str.objs
    ensures sid in e.inv.opens && e.inv.opens[sid].InvokedAs?
    ensures var rid := e.inv.opens[sid].rid;
            rid in e.inv.calls && e.inv.calls[rid].sentAt.Some? &&
            var at := e.inv.calls[rid].sentAt.value;
            at in p.srv.reqs && p.srv.reqs[at].answeredAt.Some? &&
            Key(ServerSide, sid) in p.str.objs && p.str.objs[Key(ServerSide, sid)].creator == at
  {
    assert ClientStreamFits(e.inv, Key(ClientSide, sid));
    var rid := e.inv.opens[sid].rid;
    assert CallFits(e.inv, rid);
    ResultIsFromHandler(e, p, rid);
    assert OpenerFits(p.srv, p.str, e.inv.calls[rid].sentAt.value);
  }

  /** Both requests to open stream `sid` are the same request. */
  lemma OpenersAgree(e: Endpoint, p: Endpoint, at: nat, other: nat)
    requires Good(e, p) && at in e.srv.reqs && other in e.srv.reqs
    requires e.srv.reqs[at].req.input.OpenStream? && e.srv.reqs[other].req.input.OpenStream?
    requires e.srv.reqs[at].req.input.streamId == e.srv.reqs[other].req.input.streamId
    ensures at == other
    ensures var q := e.srv.reqs[at].req;
            q.input.streamId in p.inv.opens && p.inv.opens[q.input.streamId] == InvokedAs(q.id)
  {
    var a, b := e.srv.reqs[at].req.id, e.srv.reqs[other].req.id;
    RequestIsFromCall(p, e, at);
    RequestIsFromCall(p, e, other);
    assert CallFits(p.inv, a) && CallFits(p.inv, b);
  }

  /** When a stream request is accepted, neither end of its stream exists. */
  lemma AcceptedStreamIsFresh(c: Config, e: Endpoint, p: Endpoint, at: nat)
    requires Good(e, p) && HasReq(e.srv, at, Started) && ResolvesStream(c, e.srv.reqs[at].req)
    ensures var sid := e.srv.reqs[at].req.input.streamId;
            Key(ServerSide, sid) !in e.str.objs && Key(ClientSide, sid) !in p.str.objs
  {
    var sid := e.srv.reqs[at].req.input.streamId;
    var k := Key(ServerSide, sid);
    if k in e.str.objs {
      assert CreatorFits(e.srv, e.str, k);
      OpenersAgree(e, p, at, e.str.objs[k].creator);
    }
    if Key(ClientSide, sid) in p.str.objs {
      ClientHasServer(p, e, sid);
    }
  }

  // ---------------------------------------------------------------- preservation

  /** The peer sees only more packets, and more of them on the wire. */
  lemma PeerGrows(p: Endpoint, io: Io, io': Io)
    requires Shared(p, io)
    requires io.out <= io'.out && io.written <= io'.written <= |io'.out| <= io'.written + 1
    ensures Shared(p, io')
  {
    assert io'.out[..p.io.read] == io.out[..p.io.read];
    assert forall k | 0 <= k < p.io.read :: io'.out[k] == io.out[k];
    hide TakenOk;
  }

  lemma CallKeepsShared(e: Endpoint, peer: Io, op: CallOp)
    requires Shared(e, peer) && CallGuard(e.inv, e.io.ctxDone, op)
    ensures RespsOk(CallEffect(e.inv, e.io.ctxDone, |e.io.out|, op), e.io.read, peer.out)
  {
    CallKeepsResps(e.inv, e.io.ctxDone, |e.io.out|, op);
    hide TakenOk, ReqsOk, CallEffect, CallGuard;
  }

  /** A step of a call changes no content of a response. */
  lemma CallKeepsResps(v: Invokes, ctxDone: bool, pos: nat, op: CallOp)
    requires CallGuard(v, ctxDone, op)
    ensures var w := CallEffect(v, ctxDone, pos, op);
            && w.resps.Keys == v.resps.Keys
            && forall k | k in v.resps ::
                 w.resps[k].id == v.resps[k].id && w.resps[k].out == v.resps[k].out
                 && w.resps[k].error == v.resps[k].error
  {
    var w := CallEffect(v, ctxDone, pos, op);
    if op.LockResponse? || op.HandOver? { assert w.resps == v.resps[op.at := w.resps[op.at]]; }
    else { assert w.resps == v.resps; }
  }

  lemma CallKeepsClientStreams(v: Invokes, t: Table, ctxDone: bool, pos: nat, op: CallOp)
    requires ClientStreamsOk(v, t) && CallsOk(v) && CallGuard(v, ctxDone, op)
    ensures ClientStreamsOk(CallEffect(v, ctxDone, pos, op), t)
  {
    var w := CallEffect(v, ctxDone, pos, op);
    assert v.lastId + 1 !in v.calls && v.lastId + 1 !in v.opens;
    hide OpensOk, KnownCalls, ReadersOk, EachCallFits;
    forall k | k in t.objs ensures ClientStreamFits(w, k) {
      assert ClientStreamFits(v, k);
      ClientStreamKept(v, ctxDone, pos, op, k);
    }
  }

  lemma ClientStreamKept(v: Invokes, ctxDone: bool, pos: nat, op: CallOp, k: Key)
    requires ClientStreamFits(v, k) && CallGuard(v, ctxDone, op)
    requires v.lastId + 1 !in v.calls && v.lastId + 1 !in v.opens
    ensures ClientStreamFits(CallEffect(v, ctxDone, pos, op), k)
  {
  }

  lemma CallStepKeeps(c: Config, cap: nat, e: Endpoint, p: Endpoint, op: CallOp)
    requires Good(e, p) && Guard(c, cap, e, p.io, OfCall(op))
    ensures Good(Effect(c, cap, e, p.io, OfCall(op)), p)
  {
    hide CallsOk, IssuedOk, ResultsOk, AnswersOk, CancelsOk, TableOk, ServerStreamsOk, ClientStreamsOk;
    hide RespsOk, ReqsOk, TakenOk;
    var ps := CallEmits(e.inv, op);
    CallsKept(e.inv, e.io.ctxDone, |e.io.out|, op);
    IssuedKept(e.inv, e.io.ctxDone, e.io.out, op);
    ResultsKept(e.inv, e.io.ctxDone, |e.io.out|, op);
    AnswersAppend(e.srv, e.io.out, ps);
    AppendKeepsTable(e.str, e.io.out, ps, e.io.ctxDone);
    CallKeepsClientStreams(e.inv, e.str, e.io.ctxDone, |e.io.out|, op);
    CallKeepsShared(e, p.io, op);
    PeerGrows(p, e.io, Emit(e.io, ps));
  }

  // ---- processRequest

  lemma RequestKeepsReqs(c: Config, e: Endpoint, peer: Io, op: RequestOp)
    requires Shared(e, peer) && RequestGuard(c, e.srv, e.io.ctxDone, op)
    ensures ReqsOk(RequestEffect(c, e.srv, e.io.ctxDone, |e.io.out|, op), e.io.read, peer.out)
  {
    RequestKeepsContents(c, e.srv, e.io.ctxDone, |e.io.out|, op);
    hide TakenOk, RespsOk, RequestEffect, RequestGuard;
  }

  /** A step of processRequest changes no content of a request. */
  lemma RequestKeepsContents(c: Config, r: Requests, ctxDone: bool, pos: nat, op: RequestOp)
    requires RequestGuard(c, r, ctxDone, op)
    ensures var w := RequestEffect(c, r, ctxDone, pos, op);
            w.reqs.Keys == r.reqs.Keys && forall k | k in r.reqs :: w.reqs[k].req == r.reqs[k].req
  {
    var w := RequestEffect(c, r, ctxDone, pos, op);
    assert op.at in r.reqs && w.reqs == r.reqs[op.at := w.reqs[op.at]];
  }

  predicate Registers(c: Config, r: Requests, op: RequestOp) {
    op.Accept? && op.at in r.reqs && r.reqs[op.at].req.service == "" && ResolvesStream(c, r.reqs[op.at].req)
  }

  lemma OpenerKept(c: Config, e: Endpoint, op: RequestOp, at: nat)
    requires RequestGuard(c, e.srv, e.io.ctxDone, op) && at in e.srv.reqs
    requires OpenerFits(e.srv, e.str, at) && ReqFits(e.srv, e.io.out, at)
    requires Registers(c, e.srv, op) ==> Key(ServerSide, e.srv.reqs[op.at].req.input.streamId) !in e.str.objs
    ensures at in RequestEffect(c, e.srv, e.io.ctxDone, |e.io.out|, op).reqs
    ensures OpenerFits(RequestEffect(c, e.srv, e.io.ctxDone, |e.io.out|, op), RequestOnTable(c, e.srv, e.str, op), at)
  {
    hide OpenerFits, ReqFits, RequestEffect, RequestOnTable, RequestGuard;
    if op.Accept? { OpenerKeptAtAccept(c, e, op.at, at); } else { OpenerKeptLater(c, e, op, at); }
  }

  lemma OpenerKeptAtAccept(c: Config, e: Endpoint, here: nat, at: nat)
    requires RequestGuard(c, e.srv, e.io.ctxDone, Accept(here)) && at in e.srv.reqs
    requires OpenerFits(e.srv, e.str, at) && ReqFits(e.srv, e.io.out, at)
    requires Registers(c, e.srv, Accept(here)) ==> Key(ServerSide, e.srv.reqs[here].req.input.streamId) !in e.str.objs
    ensures at in RequestEffect(c, e.srv, e.io.ctxDone, |e.io.out|, Accept(here)).reqs
    ensures OpenerFits(RequestEffect(c, e.srv, e.io.ctxDone, |e.io.out|, Accept(here)),
                       RequestOnTable(c, e.srv, e.str, Accept(here)), at)
  {
  }

  lemma OpenerKeptLater(c: Config, e: Endpoint, op: RequestOp, at: nat)
    requires RequestGuard(c, e.srv, e.io.ctxDone, op) && at in e.srv.reqs && !op.Accept?
    requires OpenerFits(e.srv, e.str, at) && ReqFits(e.srv, e.io.out, at)
    ensures at in RequestEffect(c, e.srv, e.io.ctxDone, |e.io.out|, op).reqs
    ensures OpenerFits(RequestEffect(c, e.srv, e.io.ctxDone, |e.io.out|, op), RequestOnTable(c, e.srv, e.str, op), at)
  {
  }

  lemma CreatorKept(c: Config, e: Endpoint, op: RequestOp, k: Key)
    requires RequestGuard(c, e.srv, e.io.ctxDone, op) && k in RequestOnTable(c, e.srv, e.str, op).objs
    requires k in e.str.objs ==> CreatorFits(e.srv, e.str, k)
    ensures CreatorFits(RequestEffect(c, e.srv, e.io.ctxDone, |e.io.out|, op), RequestOnTable(c, e.srv, e.str, op), k)
  {
  }

  lemma RequestKeepsServerStreams(c: Config, e: Endpoint, p: Endpoint, op: RequestOp)
    requires Good(e, p) && RequestGuard(c, e.srv, e.io.ctxDone, op)
    ensures ServerStreamsOk(RequestEffect(c, e.srv, e.io.ctxDone, |e.io.out|, op), RequestOnTable(c, e.srv, e.str, op))
  {
    if Registers(c, e.srv, op) { AcceptedStreamIsFresh(c, e, p, op.at); }
    assert AnswersOk(e.srv, e.io.out) && ServerStreamsOk(e.srv, e.str);
    RequestKeys(c, e.srv, e.io.ctxDone, |e.io.out|, op);
    hide Good, OpenerFits, CreatorFits, ReqFits, AnswerFits;
    var w, t := RequestEffect(c, e.srv, e.io.ctxDone, |e.io.out|, op), RequestOnTable(c, e.srv, e.str, op);
    forall at | at in w.reqs ensures OpenerFits(w, t, at) { OpenerKept(c, e, op, at); }
    forall k | k in t.objs ensures CreatorFits(w, t, k) { CreatorKept(c, e, op, k); }
  }

  lemma AcceptKeepsTable(c: Config, e: Endpoint, p: Endpoint, at: nat)
    requires Good(e, p) && HasReq(e.srv, at, Started) && Registers(c, e.srv, Accept(at))
    ensures TableOk(AcceptStream(c, e.str, e.srv.reqs[at].req, at), e.io.out, e.io.ctxDone)
    ensures TakenOk(AcceptStream(c, e.str, e.srv.reqs[at].req, at), p.io.out[..e.io.read])
  {
    hide TakenOk, TableOk, CallsOk, IssuedOk, ResultsOk, AnswersOk;
    hide CancelsOk, ServerStreamsOk, ClientStreamsOk, RespsOk, ReqsOk;
    hide SentBy;
    var k := Key(ServerSide, e.srv.reqs[at].req.input.streamId);
    AcceptedStreamIsFresh(c, e, p, at);
    NothingYet(e, p, k);
    RegisterServerKeeps(e.str, k, at, e.io.out, e.io.ctxDone, p.io.out[..e.io.read]);
  }

  lemma RegisterServerKeeps(t: Table, k: Key, at: nat, out: seq<Packet>, ctxDone: bool, taken: seq<Packet>)
    requires TableOk(t, out, ctxDone) && TakenOk(t, taken)
    requires k.side.ServerSide? && k !in t.objs && SentBy(t.drops, Mirror(k)) == []
    ensures var t' := t.(objs := t.objs[k := NewObj(k, NotStarted, 0, at)], live := t.live + {k});
            TableOk(t', out, ctxDone) && TakenOk(t', taken)
  {
    hide TakenOk, ObjOk;
    var o := NewObj(k, NotStarted, 0, at);
    SentByNone(t, out, k);
    NewObjOk(k, NotStarted, 0, at, out, ctxDone);
    assert out + [] == out;
    SetObjKeepsTable(t, k, o, out, [], ctxDone);
    RegisteringKeepsTaken(t, taken, k, o);
    LiveKeepsTable(SetObj(t, k, o), k, out, ctxDone);
  }

  lemma StartHandlerKeepsTable(t: Table, q: RequestMsg, out: seq<Packet>, ctxDone: bool, taken: seq<Packet>)
    requires TableOk(t, out, ctxDone) && TakenOk(t, taken)
    ensures TableOk(StartHandler(t, q), out, ctxDone) && TakenOk(StartHandler(t, q), taken)
  {
    hide TakenOk, ObjOk;
    var t' := StartHandler(t, q);
    if t' != t {
      var k := Key(ServerSide, q.input.streamId);
      GoneOk(t.objs[k], k, out, ctxDone);
      assert out + [] == out;
      SetObjKeepsTable(t, k, t.objs[k].(owner := Serving), out, [], ctxDone);
      SameReceiversKeepTaken(t, t', taken);
    }
  }

  lemma RequestKeepsTable(c: Config, e: Endpoint, p: Endpoint, op: RequestOp)
    requires Good(e, p) && RequestGuard(c, e.srv, e.io.ctxDone, op)
    ensures TableOk(RequestOnTable(c, e.srv, e.str, op), e.io.out, e.io.ctxDone)
    ensures TakenOk(RequestOnTable(c, e.srv, e.str, op), p.io.out[..e.io.read])
  {
    hide TakenOk, TableOk, CallsOk, IssuedOk, ResultsOk, AnswersOk;
    hide CancelsOk, ServerStreamsOk, ClientStreamsOk, RespsOk, ReqsOk;
    if Registers(c, e.srv, op) {
      AcceptKeepsTable(c, e, p, op.at);
    } else if op.Respond? || op.RespondFails? {
      StartHandlerKeepsTable(e.str, e.srv.reqs[op.at].req, e.io.out, e.io.ctxDone, p.io.out[..e.io.read]);
    }
  }

  lemma LiveKeepsTable(t: Table, k: Key, out: seq<Packet>, ctxDone: bool)
    requires TableOk(t, out, ctxDone) && k in t.objs
    ensures TableOk(t.(live := t.live + {k}), out, ctxDone)
  {
    hide ObjOk;
    var t' := t.(live := t.live + {k});
    forall i | 0 <= i < |out| ensures PacketFits(t', out[i]) { assert PacketFits(t, out[i]); }
  }

  /** No message for a stream end is read, or dropped, before its other end exists. */
  lemma NothingYet(e: Endpoint, p: Endpoint, k: Key)
    requires Good(e, p) && k !in e.str.objs && Mirror(k) !in p.str.objs
    ensures SentBy(e.str.drops, Mirror(k)) == []
  {
    assert RecvFits(e.str, p.io.out[..e.io.read], k);
    SentByNone(p.str, p.io.out, Mirror(k));
    SentBySplit(p.io.out, e.io.read, Mirror(k));
  }

  lemma NewStreamsAreServers(c: Config, e: Endpoint, op: RequestOp)
    requires ClientStreamsOk(e.inv, e.str)
    ensures ClientStreamsOk(e.inv, RequestOnTable(c, e.srv, e.str, op))
  {
    forall k | k in RequestOnTable(c, e.srv, e.str, op).objs ensures ClientStreamFits(e.inv, k) {
      assert k in e.str.objs ==> ClientStreamFits(e.inv, k);
    }
  }

  lemma OnlyResponses(r: Requests, op: RequestOp)
    ensures |RequestEmits(r, op)| <= 1 && forall q | q in RequestEmits(r, op) :: q.Response?
  {
  }

  lemma RequestKeepsLocal(c: Config, cap: nat, e: Endpoint, p: Endpoint, op: RequestOp)
    requires Good(e, p) && Guard(c, cap, e, p.io, OfRequest(op))
    ensures Local(Effect(c, cap, e, p.io, OfRequest(op)))
  {
    IdsAreUnique(e, p);
    hide UniqueIds, CallsOk, IssuedOk, ResultsOk, AnswersOk, CancelsOk, TableOk, ServerStreamsOk, ClientStreamsOk;
    hide Shared, RequestEffect, RequestOnTable, RequestGuard, RequestEmits;
    var ps := RequestEmits(e.srv, op);
    OnlyResponses(e.srv, op);
    IssuedAppend(e.inv, e.io.out, ps);
    AnswersKept(c, e.srv, e.io.ctxDone, e.io.out, op);
    CancelsKept(c, e.srv, e.io.ctxDone, e.io.out, op);
    RequestKeepsTable(c, e, p, op);
    AppendKeepsTable(RequestOnTable(c, e.srv, e.str, op), e.io.out, ps, e.io.ctxDone);
    RequestKeepsServerStreams(c, e, p, op);
    NewStreamsAreServers(c, e, op);
  }

  lemma RequestKeepsWire(c: Config, cap: nat, e: Endpoint, p: Endpoint, op: RequestOp)
    requires Good(e, p) && Guard(c, cap, e, p.io, OfRequest(op))
    ensures Shared(Effect(c, cap, e, p.io, OfRequest(op)), p.io) && Shared(p, Effect(c, cap, e, p.io, OfRequest(op)).io)
  {
    hide Local, TableOk, RespsOk, ReqsOk, TakenOk, RequestEffect, RequestOnTable, RequestGuard, RequestEmits;
    OnlyResponses(e.srv, op);
    RequestKeepsTable(c, e, p, op);
    RequestKeepsReqs(c, e, p.io, op);
    PeerGrows(p, e.io, Emit(e.io, RequestEmits(e.srv, op)));
  }

  lemma RequestStepKeeps(c: Config, cap: nat, e: Endpoint, p: Endpoint, op: RequestOp)
    requires Good(e, p) && Guard(c, cap, e, p.io, OfRequest(op))
    ensures Good(Effect(c, cap, e, p.io, OfRequest(op)), p)
  {
    hide Local, Shared, Guard, Effect;
    RequestKeepsLocal(c, cap, e, p, op);
    RequestKeepsWire(c, cap, e, p, op);
  }

  // ---- streams

  lemma StreamKeepsCreators(v: Invokes, r: Requests, t: Table, ctxDone: bool, op: StreamOp)
    requires ServerStreamsOk(r, t) && ClientStreamsOk(v, t) && StreamGuard(v, t, ctxDone, op)
    ensures ServerStreamsOk(r, StreamEffect(v, t, ctxDone, op))
    ensures ClientStreamsOk(v, StreamEffect(v, t, ctxDone, op))
  {
    var t' := StreamEffect(v, t, ctxDone, op);
    StreamKeepsCreator(v, t, ctxDone, op);
    NewStreamFits(v, t, ctxDone, op);
    hide StreamEffect, ClientStreamFits;
    forall at | at in r.reqs ensures OpenerFits(r, t', at) {
      assert OpenerFits(r, t, at);
    }
    forall k | k in t'.objs ensures CreatorFits(r, t', k) && ClientStreamFits(v, k) {
      assert k in t.objs ==> CreatorFits(r, t, k) && ClientStreamFits(v, k);
    }
  }

  lemma StreamKeepsCreator(v: Invokes, t: Table, ctxDone: bool, op: StreamOp)
    requires StreamGuard(v, t, ctxDone, op)
    ensures var t' := StreamEffect(v, t, ctxDone, op);
            forall k | k in t.objs :: k in t'.objs && t'.objs[k].creator == t.objs[k].creator
  {
  }

  lemma NewStreamFits(v: Invokes, t: Table, ctxDone: bool, op: StreamOp)
    requires StreamGuard(v, t, ctxDone, op)
    ensures forall k | k in StreamEffect(v, t, ctxDone, op).objs && k !in t.objs ::
              k.side.ClientSide? && ClientStreamFits(v, k)
  {
  }

  lemma StreamStepKeeps(c: Config, cap: nat, e: Endpoint, p: Endpoint, op: StreamOp)
    requires Good(e, p) && Guard(c, cap, e, p.io, OfStream(op))
    ensures Good(Effect(c, cap, e, p.io, OfStream(op)), p)
  {
    hide CallsOk, IssuedOk, ResultsOk, AnswersOk, CancelsOk, TableOk, ServerStreamsOk, ClientStreamsOk;
    hide RespsOk, ReqsOk, TakenOk;
    var ps := StreamEmits(e.str, op);
    IssuedAppend(e.inv, e.io.out, ps);
    AnswersAppend(e.srv, e.io.out, ps);
    StreamKeepsTable(e.inv, e.str, e.io.out, e.io.ctxDone, op);
    StreamKeepsTaken(e.inv, e.str, p.io.out[..e.io.read], e.io.ctxDone, op);
    StreamKeepsCreators(e.inv, e.srv, e.str, e.io.ctxDone, op);
    PeerGrows(p, e.io, Emit(e.io, ps));
  }

  // ---- reader, writer and teardown

  lemma SentClosesLast(t: Table, out: seq<Packet>, ctxDone: bool, k: Key)
    requires TableOk(t, out, ctxDone)
    ensures ClosesLast(SentBy(out, k))
  {
    if k in t.objs {
      assert ObjOk(t.objs[k], k, out, ctxDone);
      ClosesLastWithin(t.objs[k].sent, [], SentBy(out, k));
    } else {
      SentByNone(t, out, k);
    }
  }

  lemma ReceivedNext(t: Table, out: seq<Packet>, n: nat, k: Key)
    requires n < |out| && TakenOk(t, out[..n]) && k in t.live && k in t.objs
    requires out[n].StreamPacket? && TargetKey(out[n].msg) == k
    ensures SentBy(t.drops, Mirror(k)) + (t.objs[k].received + [out[n].msg]) <= SentBy(out, Mirror(k))
  {
    hide SentBy;
    assert RecvFits(t, out[..n], k);
    NextSent(out, n, Mirror(k));
    Regroup(SentBy(t.drops, Mirror(k)), t.objs[k].received, [out[n].msg], SentBy(out, Mirror(k)));
  }

  lemma NextSent(out: seq<Packet>, n: nat, k: Key)
    requires n < |out| && out[n].StreamPacket? && SenderKey(out[n].msg) == k
    ensures SentBy(out[..n], k) + [out[n].msg] <= SentBy(out, k)
  {
    SentByTakeOne(out, n, k);
    SentBySplit(out, n + 1, k);
    hide SentBy;
  }

  lemma Regroup<T>(a: seq<T>, b: seq<T>, c: seq<T>, all: seq<T>)
    requires (a + b) + c <= all
    ensures a + (b + c) <= all
  {
    assert a + (b + c) == (a + b) + c;
  }

  /** The peer's sender puts closes last, so no data follows a dispatched close. */
  lemma ReadClosesLast(e: Endpoint, p: Endpoint, k: Key)
    requires Good(e, p) && k in e.str.live && e.io.read < |p.io.out|
    requires p.io.out[e.io.read].StreamPacket? && TargetKey(p.io.out[e.io.read].msg) == k
    ensures k in e.str.objs
    ensures ClosesLast(e.str.objs[k].received + [p.io.out[e.io.read].msg])
  {
    assert e.str.live <= e.str.objs.Keys;
    hide TakenOk, ObjOk, CallsOk, IssuedOk, ResultsOk, AnswersOk;
    hide CancelsOk, ServerStreamsOk, ClientStreamsOk, RespsOk, ReqsOk;
    hide ClosesLast, SentBy;
    ReceivedNext(e.str, p.io.out, e.io.read, k);
    SentClosesLast(p.str, p.io.out, p.io.ctxDone, Mirror(k));
    ClosesLastWithin(SentBy(p.io.out, Mirror(k)), SentBy(e.str.drops, Mirror(k)),
                     e.str.objs[k].received + [p.io.out[e.io.read].msg]);
  }

  lemma ClosesLastWithin(all: seq<StreamMsg>, before: seq<StreamMsg>, part: seq<StreamMsg>)
    requires ClosesLast(all) && before + part <= all
    ensures ClosesLast(part)
  {
    forall i, j | 0 <= i < j < |part| ensures part[i].payload.Close? ==> part[j].payload.Close? {
      assert all[|before| + i] == part[i] && all[|before| + j] == part[j];
    }
  }

  lemma DeliverKeepsTable(t: Table, out: seq<Packet>, ctxDone: bool, m: StreamMsg)
    requires TableOk(t, out, ctxDone)
    requires TargetKey(m) in t.live ==> ClosesLast(t.objs[TargetKey(m)].received + [m])
    ensures TableOk(Dispatch(t, m), out, ctxDone)
  {
    hide ObjOk;
    var k, t' := TargetKey(m), Dispatch(t, m);
    if k in t.live {
      DeliverOk(t.objs[k], m, k, out, ctxDone);
      assert out + [] == out;
      SetObjKeepsTable(t, k, t'.objs[k], out, [], ctxDone);
    } else {
      forall i | 0 <= i < |out| ensures PacketFits(t', out[i]) { assert PacketFits(t, out[i]); }
    }
  }

  lemma DispatchKeepsTable(e: Endpoint, p: Endpoint, m: StreamMsg)
    requires Good(e, p) && e.io.read < |p.io.out| && p.io.out[e.io.read] == StreamPacket(m)
    ensures TableOk(Dispatch(e.str, m), e.io.out, e.io.ctxDone)
  {
    if TargetKey(m) in e.str.live { ReadClosesLast(e, p, TargetKey(m)); }
    hide CallsOk, IssuedOk, ResultsOk, AnswersOk, CancelsOk, ServerStreamsOk, ClientStreamsOk, Shared, TableOk;
    DeliverKeepsTable(e.str, e.io.out, e.io.ctxDone, m);
  }

  lemma DispatchKeepsCreators(v: Invokes, r: Requests, t: Table, m: StreamMsg)
    requires ServerStreamsOk(r, t) && ClientStreamsOk(v, t)
    ensures ServerStreamsOk(r, Dispatch(t, m)) && ClientStreamsOk(v, Dispatch(t, m))
  {
    var t' := Dispatch(t, m);
    forall at | at in r.reqs ensures OpenerFits(r, t', at) { assert OpenerFits(r, t, at); }
    forall k | k in t'.objs ensures CreatorFits(r, t', k) && ClientStreamFits(v, k) {
      assert CreatorFits(r, t, k) && ClientStreamFits(v, k);
    }
  }

  lemma SpawnKeepsServerStreams(r: Requests, t: Table, at: nat, req: RequestMsg)
    requires ServerStreamsOk(r, t) && at !in r.reqs
    ensures ServerStreamsOk(SpawnReq(r, at, req), t)
  {
    var w := SpawnReq(r, at, req);
    forall k | k in w.reqs ensures OpenerFits(w, t, k) { assert k in r.reqs ==> OpenerFits(r, t, k); }
    forall k | k in t.objs ensures CreatorFits(w, t, k) { assert CreatorFits(r, t, k); }
  }

  lemma CancelKeepsServerStreams(r: Requests, t: Table, id: nat, cause: string)
    requires ServerStreamsOk(r, t)
    ensures ServerStreamsOk(DoCancel(r, id, cause), t)
  {
    var w := DoCancel(r, id, cause);
    forall k | k in w.reqs ensures OpenerFits(w, t, k) { assert OpenerFits(r, t, k); }
    forall k | k in t.objs ensures CreatorFits(w, t, k) { assert CreatorFits(r, t, k); }
  }

  lemma ReadKeepsSpawns(e: Endpoint, peer: Io)
    requires Shared(e, peer) && e.io.read < peer.written
    ensures e.io.read !in e.srv.reqs && e.io.read !in e.inv.resps
    ensures RespsOk(DoRead(e, peer.out[e.io.read]).inv, e.io.read + 1, peer.out)
    ensures ReqsOk(DoRead(e, peer.out[e.io.read]).srv, e.io.read + 1, peer.out)
  {
    hide TakenOk;
    assert RespsOk(e.inv, e.io.read, peer.out) && ReqsOk(e.srv, e.io.read, peer.out);
    ReadKeepsResps(e, peer);
    ReadKeepsReqs(e, peer);
    hide DoRead;
  }

  lemma ReadKeepsResps(e: Endpoint, peer: Io)
    requires RespsOk(e.inv, e.io.read, peer.out) && e.io.read < peer.written <= |peer.out|
    ensures RespsOk(DoRead(e, peer.out[e.io.read]).inv, e.io.read + 1, peer.out)
  {
    hide Dispatch, DoCancel;
  }

  lemma ReadKeepsReqs(e: Endpoint, peer: Io)
    requires ReqsOk(e.srv, e.io.read, peer.out) && e.io.read < peer.written <= |peer.out|
    ensures ReqsOk(DoRead(e, peer.out[e.io.read]).srv, e.io.read + 1, peer.out)
  {
    hide Dispatch;
    var e' := DoRead(e, peer.out[e.io.read]);
    assert e'.srv.reqs.Keys == e.srv.reqs.Keys + if peer.out[e.io.read].Request? then {e.io.read} else {};
    assert forall k | k in e.srv.reqs :: e'.srv.reqs[k].req == e.srv.reqs[k].req;
  }

  lemma ReadShape(e: Endpoint, q: Packet)
    ensures DoRead(e, q).io == e.io.(read := e.io.read + 1)
    ensures DoRead(e, q).str == if q.StreamPacket? then Dispatch(e.str, q.msg) else e.str
  {
  }

  lemma ReadKeepsShared(e: Endpoint, p: Endpoint)
    requires Good(e, p) && e.io.read < p.io.written
    ensures Shared(DoRead(e, p.io.out[e.io.read]), p.io)
  {
    assert TableOk(e.str, e.io.out, e.io.ctxDone);
    hide RespsOk, ReqsOk, TakenOk, TableOk, Local, DoRead;
    ReadKeepsSpawns(e, p.io);
    ReadShape(e, p.io.out[e.io.read]);
    ReadKeepsTaken(e, p.io.out);
  }

  lemma ReadKeepsTaken(e: Endpoint, out: seq<Packet>)
    requires TableOk(e.str, e.io.out, e.io.ctxDone) && e.io.read < |out| && TakenOk(e.str, out[..e.io.read])
    ensures TakenOk(DoRead(e, out[e.io.read]).str, out[..e.io.read + 1])
  {
    hide TakenOk, Dispatch, ObjOk;
    var n := e.io.read;
    assert out[..n+1] == out[..n] + [out[n]];
    if out[n].StreamPacket? { DispatchKeepsTaken(e.str, out[..n], out[n].msg); }
    else { OtherPacketKeepsTaken(e.str, out[..n], out[n]); }
  }

  lemma ReadKeepsLocal(e: Endpoint, p: Endpoint)
    requires Good(e, p) && e.io.read < p.io.written
    ensures Local(DoRead(e, p.io.out[e.io.read]))
  {
    ReadKeepsSpawns(e, p.io);
    hide CallsOk, ResultsOk, AnswersOk, CancelsOk, TableOk, ServerStreamsOk;
    hide RespsOk, ReqsOk, TakenOk;
    var at := e.io.read;
    match p.io.out[at]
    case Request(req) =>
      SpawnReqKeeps(e.srv, e.io.out, at, req);
      SpawnReqKeepsCancels(e.srv, at, req);
      SpawnKeepsServerStreams(e.srv, e.str, at, req);
    case Response(id, out, error) =>
      SpawnRespKeeps(e.inv, at, Resp(id, out, error, Arrived));
      SpawnRespKeepsResults(e.inv, at, Resp(id, out, error, Arrived));
      SpawnRespKeepsIssued(e.inv, e.io.out, at, Resp(id, out, error, Arrived));
    case StreamPacket(m) =>
      DispatchKeepsTable(e, p, m);
      DispatchKeepsCreators(e.inv, e.srv, e.str, m);
    case CtxCancel(id, cause) =>
      CancelKeeps(e.srv, e.io.out, id, cause);
      CancelKeepsCancels(e.srv, id, cause);
      CancelKeepsServerStreams(e.srv, e.str, id, cause);
  }

  lemma SpawnRespKeepsIssued(v: Invokes, out: seq<Packet>, at: nat, r: Resp)
    requires IssuedOk(v, out)
    ensures IssuedOk(SpawnResp(v, at, r), out)
  {
    var w := SpawnResp(v, at, r);
    forall id | id in w.calls ensures SentFits(w, out, id) { assert SentFits(v, out, id); }
    forall i | 0 <= i < |out| ensures IssuedFits(w, out, i) { assert IssuedFits(v, out, i); }
  }

  lemma CleanupKeeps(e: Endpoint, taken: seq<Packet>)
    requires Local(e) && TakenOk(e.str, taken)
    ensures Local(e.(str := DoCleanup(e.str))) && TakenOk(DoCleanup(e.str), taken)
  {
    hide CallsOk, IssuedOk, ResultsOk, AnswersOk, CancelsOk, TableOk, TakenOk;
    var t, t' := e.str, DoCleanup(e.str);
    CleanupKeepsTable(t, e.io.out, e.io.ctxDone);
    SameReceiversKeepTaken(t, t', taken);
    forall at | at in e.srv.reqs ensures OpenerFits(e.srv, t', at) { assert OpenerFits(e.srv, t, at); }
    forall k | k in t'.objs ensures CreatorFits(e.srv, t', k) && ClientStreamFits(e.inv, k) {
      assert CreatorFits(e.srv, t, k) && ClientStreamFits(e.inv, k);
    }
  }

  lemma EndCtxKeeps(e: Endpoint)
    requires Local(e)
    ensures Local(e.(io := e.io.(ctxDone := true)))
  {
    hide CallsOk, IssuedOk, ResultsOk, AnswersOk, CancelsOk, ServerStreamsOk, ClientStreamsOk;
    hide ObjSends, ObjQueue, ObjClose, ObjGraceful, ObjNumbered;
    assert TableOk(e.str, e.io.out, true);
  }

  lemma LinkKeepsEndpoint(cap: nat, e: Endpoint, p: Endpoint, op: LinkOp)
    requires Good(e, p) && LinkGuard(cap, e.io, p.io, op)
    ensures Local(LinkEffect(cap, e, p.io, op)) && Shared(LinkEffect(cap, e, p.io, op), p.io)
  {
    match op
    case Read =>
      ReadKeepsLocal(e, p);
      ReadKeepsShared(e, p);
      hide Local, Shared;
    case Cleanup =>
      hide RespsOk, ReqsOk, TakenOk;
      CleanupKeeps(e, p.io.out[..e.io.read]);
    case EndCtx =>
      EndCtxKeeps(e);
    case _ =>
      hide CallsOk, IssuedOk, ResultsOk, AnswersOk, CancelsOk, TableOk, ServerStreamsOk, ClientStreamsOk;
      hide RespsOk, ReqsOk, TakenOk;
  }

  lemma LinkStepKeeps(c: Config, cap: nat, e: Endpoint, p: Endpoint, op: LinkOp)
    requires Good(e, p) && Guard(c, cap, e, p.io, OfLink(op))
    ensures Good(Effect(c, cap, e, p.io, OfLink(op)), p)
  {
    hide Local, RespsOk, ReqsOk, TakenOk;
    LinkKeepsEndpoint(cap, e, p, op);
    PeerGrows(p, e.io, LinkEffect(cap, e, p.io, op).io);
  }

  lemma StepKeepsGood(c: Config, cap: nat, e: Endpoint, p: Endpoint, op: Op)
    requires Good(e, p) && Guard(c, cap, e, p.io, op)
    ensures Good(Effect(c, cap, e, p.io, op), p)
  {
    match op
    case OfCall(o) => CallStepKeeps(c, cap, e, p, o);
    case OfRequest(o) => RequestStepKeeps(c, cap, e, p, o);
    case OfStream(o) => StreamStepKeeps(c, cap, e, p, o);
    case OfLink(o) => LinkStepKeeps(c, cap, e, p, o);
  }

  lemma StepKeepsInv(w: World, s: Sys, act: Action)
    requires Inv(s) && Enabled(w, s, act)
    ensures Inv(Step(w, s, act))
  {
    StepKeepsGood(w.Of(act.x), w.cap, s.Of(act.x), s.Of(PeerOf(act.x)), act.op);
    hide Local, Shared;
  }

  lemma InitHolds()
    ensures Inv(INIT)
  {
    forall k: Key ensures RecvFits(IDLE.str, [], k) { }
  }

  /** The invariant holds after every run, of any length. */
  lemma {:induction false} RunKeepsInv(w: World, s: Sys, acts: seq<Action>)
    requires Inv(s) && Run(w, s, acts).Some?
    ensures Inv(Run(w, s, acts).value)
    decreases |acts|
  {
    if acts != [] {
      StepKeepsInv(w, s, acts[0]);
      RunKeepsInv(w, Step(w, s, acts[0]), acts[1..]);
    }
  }

  lemma {:induction false} RunAppend(w: World, s: Sys, acts: seq<Action>, act: Action)
    requires Run(w, s, acts).Some? && Enabled(w, Run(w, s, acts).value, act)
    ensures Run(w, s, acts + [act]) == Some(Step(w, Run(w, s, acts).value, act))
    decreases |acts|
  {
    hide Guard, Effect;
    if acts == [] {
      assert ([act])[1..] == [];
      assert Run(w, Step(w, s, act), []) == Some(Step(w, s, act));
    } else {
      assert (acts + [act])[1..] == acts[1..] + [act];
      RunAppend(w, Step(w, s, acts[0]), acts[1..], act);
    }
  }

  /** The states some run leads to from a fresh connection. */
  ghost predicate Reachable(w: World, s: Sys) {
    exists acts: seq<Action> :: Run(w, INIT, acts) == Some(s)
  }

  lemma ReachableInv(w: World, s: Sys)
    requires Reachable(w, s)
    ensures Inv(s) && Good(s.b, s.a)
  {
    var acts: seq<Action> :| Run(w, INIT, acts) == Some(s);
    InitHolds();
    RunKeepsInv(w, INIT, acts);
  }
}
