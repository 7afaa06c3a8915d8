/** The order of a stream's response and its messages on the wire (xrpc/conn.go:371-386, 443-452):
    the handler starts only when the response was handed over, so nothing the server end sends
    overtakes the response, and the window in which messages are lost opens only when the client
    has read the response. */
module StreamOrder {
  import opened Packets
  import opened Streams
  import opened Protocol
  import opened CallInvariants
  import opened WireInvariants
  import opened StreamInvariants
  import opened Invariants
  import opened CallGuarantees

  /** A server end sends nothing before its handler starts, the handler starts only when the
      response was handed over, or could not be because serve's context had ended, and nothing was
      sent up to the response. */
  ghost predicate Follows(r: Requests, t: Table, out: seq<Packet>, ctxDone: bool, k: Key)
    requires k in t.objs
  {
    var o := t.objs[k];
    k.side.ServerSide? && o.creator in r.reqs ==>
      var q := r.reqs[o.creator];
      && (o.owner.NotStarted? ==> o.sent == [])
      && (q.pc.Responding? ==> o.owner.NotStarted?)
      && (!o.owner.NotStarted? && !ctxDone ==> q.answeredAt.Some?)
      && (q.answeredAt.Some? ==> q.answeredAt.value < |out| && SentBy(out[..q.answeredAt.value + 1], k) == [])
  }

  ghost predicate AllFollow(e: Endpoint) {
    forall k | k in e.str.objs :: Follows(e.srv, e.str, e.io.out, e.io.ctxDone, k)
  }

  /** A step that leaves the creator of `k` where it was, up to answering and responding. */
  predicate Untouched(r: Requests, t: Table, r': Requests, t': Table, k: Key)
    requires k in t.objs
  {
    && k in t'.objs && t'.objs[k].creator == t.objs[k].creator
    && (t'.objs[k].owner.NotStarted? <==> t.objs[k].owner.NotStarted?)
    && (t.objs[k].owner.NotStarted? && t.objs[k].sent == [] ==> t'.objs[k].sent == [])
    && (k.side.ServerSide? && t.objs[k].creator in r.reqs ==>
          var at := t.objs[k].creator;
          at in r'.reqs && r'.reqs[at].answeredAt == r.reqs[at].answeredAt &&
          (r'.reqs[at].pc.Responding? ==> r.reqs[at].pc.Responding?))
  }

  lemma UntouchedFollows(r: Requests, t: Table, out: seq<Packet>, d: bool, r': Requests, t': Table, out': seq<Packet>,
                         d': bool, k: Key)
    requires k in t.objs && Follows(r, t, out, d, k) && out <= out' && (d ==> d') && Untouched(r, t, r', t', k)
    requires k.side.ServerSide? ==> t.objs[k].creator in r.reqs
    ensures Follows(r', t', out', d', k)
  {
    hide SentBy;
    if k.side.ServerSide? && r.reqs[t.objs[k].creator].answeredAt.Some? {
      var j := r.reqs[t.objs[k].creator].answeredAt.value;
      assert out'[..j + 1] == out[..j + 1];
    }
  }

  lemma CreatorIsKnown(e: Endpoint, k: Key)
    requires Local(e) && k in e.str.objs && k.side.ServerSide?
    ensures var at := e.str.objs[k].creator;
            at in e.srv.reqs && !e.srv.reqs[at].pc.Started? && !e.srv.reqs[at].pc.Ran? &&
            e.srv.reqs[at].req.service == ""
            && e.srv.reqs[at].req.input == OpenStream(k.id, e.srv.reqs[at].req.input.service,
                                                      e.srv.reqs[at].req.input.methodName)
  {
    assert CreatorFits(e.srv, e.str, k);
    assert ReqFits(e.srv, e.io.out, e.str.objs[k].creator);
  }

  lemma StreamStepFollows(e: Endpoint, op: StreamOp, k: Key)
    requires Local(e) && StreamGuard(e.inv, e.str, e.io.ctxDone, op)
    requires k in e.str.objs && Follows(e.srv, e.str, e.io.out, e.io.ctxDone, k)
    ensures k in StreamEffect(e.inv, e.str, e.io.ctxDone, op).objs
    ensures Follows(e.srv, StreamEffect(e.inv, e.str, e.io.ctxDone, op), e.io.out + StreamEmits(e.str, op),
                    e.io.ctxDone, k)
  {
    if k.side.ServerSide? { CreatorIsKnown(e, k); }
    StreamStepIsElsewhere(e.inv, e.srv, e.str, e.io.ctxDone, op, k);
    hide Local, Follows, StreamEffect, StreamEmits, StreamGuard, Untouched;
    UntouchedFollows(e.srv, e.str, e.io.out, e.io.ctxDone, e.srv, StreamEffect(e.inv, e.str, e.io.ctxDone, op),
                     e.io.out + StreamEmits(e.str, op), e.io.ctxDone, k);
  }

  lemma StreamStepIsElsewhere(v: Invokes, r: Requests, t: Table, ctxDone: bool, op: StreamOp, k: Key)
    requires StreamGuard(v, t, ctxDone, op) && k in t.objs
    ensures Untouched(r, t, r, StreamEffect(v, t, ctxDone, op), k)
  {
  }

  lemma LinkStepFollows(cap: nat, e: Endpoint, peer: Io, op: LinkOp, k: Key)
    requires Local(e) && LinkGuard(cap, e.io, peer, op) && e.io.read !in e.srv.reqs
    requires k in e.str.objs && Follows(e.srv, e.str, e.io.out, e.io.ctxDone, k)
    ensures var e' := LinkEffect(cap, e, peer, op);
            k in e'.str.objs && e'.io.out == e.io.out && Follows(e'.srv, e'.str, e'.io.out, e'.io.ctxDone, k)
  {
    hide Local, Follows, LinkEffect, LinkGuard, Untouched;
    if k.side.ServerSide? { CreatorIsKnown(e, k); }
    LinkEmitsNothing(cap, e, peer, op);
    LinkStepIsElsewhere(cap, e, peer, op, k);
    var e' := LinkEffect(cap, e, peer, op);
    UntouchedHasKey(e.srv, e.str, e'.srv, e'.str, k);
    UntouchedFollows(e.srv, e.str, e.io.out, e.io.ctxDone, e'.srv, e'.str, e'.io.out, e'.io.ctxDone, k);
  }

  lemma UntouchedHasKey(r: Requests, t: Table, r': Requests, t': Table, k: Key)
    requires k in t.objs && Untouched(r, t, r', t', k)
    ensures k in t'.objs
  {
  }

  lemma LinkEmitsNothing(cap: nat, e: Endpoint, peer: Io, op: LinkOp)
    requires LinkGuard(cap, e.io, peer, op)
    ensures LinkEffect(cap, e, peer, op).io.out == e.io.out
    ensures (e.io.ctxDone ==> LinkEffect(cap, e, peer, op).io.ctxDone)
  {
    hide Dispatch, DoCancel;
  }

  lemma LinkStepIsElsewhere(cap: nat, e: Endpoint, peer: Io, op: LinkOp, k: Key)
    requires LinkGuard(cap, e.io, peer, op) && e.io.read !in e.srv.reqs && k in e.str.objs
    ensures Untouched(e.srv, e.str, LinkEffect(cap, e, peer, op).srv, LinkEffect(cap, e, peer, op).str, k)
  {
    hide Deliver;
  }

  /** processRequest: only the hand-over of the response concerns the stream it created. */
  lemma RequestStepFollows(c: Config, e: Endpoint, p: Endpoint, op: RequestOp, k: Key)
    requires Good(e, p) && RequestGuard(c, e.srv, e.io.ctxDone, op)
    requires k in e.str.objs && Follows(e.srv, e.str, e.io.out, e.io.ctxDone, k)
    ensures k in RequestOnTable(c, e.srv, e.str, op).objs
    ensures Follows(RequestEffect(c, e.srv, e.io.ctxDone, |e.io.out|, op), RequestOnTable(c, e.srv, e.str, op),
                    e.io.out + RequestEmits(e.srv, op), e.io.ctxDone, k)
  {
    hide Local, Shared, Follows, Untouched, RequestEffect, RequestOnTable;
    hide RequestEmits, RequestGuard, Registers, CanRespond;
    if k.side.ServerSide? { CreatorIsKnown(e, k); }
    if Registers(c, e.srv, op) { RegisteredIsNew(c, e, p, op); }
    if Responds(op) { CanRespondNow(c, e.srv, e.io.ctxDone, op); }
    if Responds(op) && k.side.ServerSide? && e.str.objs[k].creator == op.at {
      NothingSentYet(e, k);
      OwnResponseFollows(c, e.srv, e.str, e.io.ctxDone, e.io.out, op, k);
    } else {
      if Responds(op) { StartsItsOwn(e, p, op.at, k); }
      OtherRequestIsElsewhere(c, e.srv, e.str, e.io.ctxDone, |e.io.out|, op, k);
      var r', t' := RequestEffect(c, e.srv, e.io.ctxDone, |e.io.out|, op), RequestOnTable(c, e.srv, e.str, op);
      UntouchedHasKey(e.srv, e.str, r', t', k);
      UntouchedFollows(e.srv, e.str, e.io.out, e.io.ctxDone, r', t', e.io.out + RequestEmits(e.srv, op), e.io.ctxDone,
                       k);
    }
  }

  lemma CanRespondNow(c: Config, r: Requests, ctxDone: bool, op: RequestOp)
    requires RequestGuard(c, r, ctxDone, op) && Responds(op)
    ensures CanRespond(r, op.at) && op.at in r.reqs
  {
  }

  lemma RegisteredIsNew(c: Config, e: Endpoint, p: Endpoint, op: RequestOp)
    requires Good(e, p) && RequestGuard(c, e.srv, e.io.ctxDone, op) && Registers(c, e.srv, op)
    ensures op.at in e.srv.reqs && e.srv.reqs[op.at].req.input.OpenStream?
    ensures Key(ServerSide, e.srv.reqs[op.at].req.input.streamId) !in e.str.objs
  {
    AcceptedStreamIsFresh(c, e, p, op.at);
  }

  predicate Responds(op: RequestOp) {
    op.Respond? || op.RespondFails?
  }

  lemma NothingSentYet(e: Endpoint, k: Key)
    requires Local(e) && k in e.str.objs && k.side.ServerSide? && Follows(e.srv, e.str, e.io.out, e.io.ctxDone, k)
    requires CanRespond(e.srv, e.str.objs[k].creator)
    ensures SentBy(e.io.out, k) == [] && e.str.objs[k].sent == []
    ensures e.srv.reqs[e.str.objs[k].creator].answeredAt.None?
  {
    assert ObjOk(e.str.objs[k], k, e.io.out, e.io.ctxDone);
    assert ReqFits(e.srv, e.io.out, e.str.objs[k].creator);
    hide SentBy;
  }

  lemma OwnResponseFollows(c: Config, r: Requests, t: Table, ctxDone: bool, out: seq<Packet>, op: RequestOp, k: Key)
    requires RequestGuard(c, r, ctxDone, op) && Responds(op) && k in t.objs && k.side.ServerSide?
    requires t.objs[k].creator == op.at && t.objs[k].sent == []
    requires SentBy(out, k) == [] && r.reqs[op.at].answeredAt.None?
    requires r.reqs[op.at].req.service == ""
    ensures k in RequestOnTable(c, r, t, op).objs
    ensures Follows(RequestEffect(c, r, ctxDone, |out|, op), RequestOnTable(c, r, t, op), out + RequestEmits(r, op),
                    ctxDone, k)
  {
    RespondShape(c, r, t, ctxDone, |out|, op, k);
    SentByAppendOthers(out, RequestEmits(r, op), k);
    hide SentBy, RequestEffect, RequestOnTable, RequestEmits, RequestGuard, Follows;
    var r', t', out' := RequestEffect(c, r, ctxDone, |out|, op), RequestOnTable(c, r, t, op), out + RequestEmits(r, op);
    if op.Respond? { RespondedFollows(r', t', out', ctxDone, k, |out|); } else { FailedFollows(r', t', out', k); }
  }

  lemma RespondedFollows(r: Requests, t: Table, out: seq<Packet>, ctxDone: bool, k: Key, pos: nat)
    requires k in t.objs && t.objs[k].creator in r.reqs && r.reqs[t.objs[k].creator].pc.Finished?
    requires r.reqs[t.objs[k].creator].answeredAt == Some(pos) && |out| == pos + 1
    requires t.objs[k].sent == [] && SentBy(out, k) == []
    ensures Follows(r, t, out, ctxDone, k)
  {
    assert out[..pos + 1] == out;
    hide SentBy;
  }

  lemma FailedFollows(r: Requests, t: Table, out: seq<Packet>, k: Key)
    requires k in t.objs && t.objs[k].creator in r.reqs && r.reqs[t.objs[k].creator].pc.Finished?
    requires r.reqs[t.objs[k].creator].answeredAt.None? && t.objs[k].sent == []
    ensures Follows(r, t, out, true, k)
  {
    hide SentBy;
  }

  lemma RespondShape(c: Config, r: Requests, t: Table, ctxDone: bool, pos: nat, op: RequestOp, k: Key)
    requires RequestGuard(c, r, ctxDone, op) && Responds(op) && k in t.objs && r.reqs[op.at].req.service == ""
    ensures var r', t' := RequestEffect(c, r, ctxDone, pos, op), RequestOnTable(c, r, t, op);
            && k in t'.objs && t'.objs[k].creator == t.objs[k].creator && t'.objs[k].sent == t.objs[k].sent
            && op.at in r'.reqs && r'.reqs[op.at].pc.Finished?
            && r'.reqs[op.at].answeredAt == (if op.Respond? then Some(pos) else r.reqs[op.at].answeredAt)
    ensures |RequestEmits(r, op)| <= 1 && (op.Respond? <==> |RequestEmits(r, op)| == 1)
    ensures (forall p | p in RequestEmits(r, op) :: !p.StreamPacket?) && (op.RespondFails? ==> ctxDone)
  {
  }

  lemma OtherRequestIsElsewhere(c: Config, r: Requests, t: Table, ctxDone: bool, pos: nat, op: RequestOp, k: Key)
    requires RequestGuard(c, r, ctxDone, op) && k in t.objs
    requires Registers(c, r, op) ==> k != Key(ServerSide, r.reqs[op.at].req.input.streamId)
    requires Responds(op) && k.side.ServerSide? ==>
               t.objs[k].creator != op.at &&
               (r.reqs[op.at].req.service == "" && r.reqs[op.at].req.input.OpenStream? ==>
                  k != Key(ServerSide, r.reqs[op.at].req.input.streamId))
    requires k.side.ServerSide? ==>
               t.objs[k].creator in r.reqs &&
               !r.reqs[t.objs[k].creator].pc.Started? && !r.reqs[t.objs[k].creator].pc.Ran?
    ensures Untouched(r, t, RequestEffect(c, r, ctxDone, pos, op), RequestOnTable(c, r, t, op), k)
  {
  }

  /** Handing over a response starts the handler of the stream that request created. */
  lemma StartsItsOwn(e: Endpoint, p: Endpoint, at: nat, k: Key)
    requires Good(e, p) && CanRespond(e.srv, at) && k in e.str.objs
    requires k.side.ServerSide? ==> e.str.objs[k].creator != at
    ensures e.srv.reqs[at].req.service == "" && e.srv.reqs[at].req.input.OpenStream? ==>
              k != Key(ServerSide, e.srv.reqs[at].req.input.streamId)
  {
    assert OpenerFits(e.srv, e.str, at);
  }

  // ---------------------------------------------------------------- every run

  /** The only server streams a step adds are accepted ones, whose response is yet to come. */
  lemma NewServerStream(c: Config, r: Requests, t: Table, ctxDone: bool, pos: nat, op: RequestOp, k: Key)
    requires RequestGuard(c, r, ctxDone, op) && k !in t.objs && k in RequestOnTable(c, r, t, op).objs
    ensures var r', t' := RequestEffect(c, r, ctxDone, pos, op), RequestOnTable(c, r, t, op);
            && op.Accept? && op.at in r.reqs && op.at in r'.reqs && t'.objs[k] == NewObj(k, NotStarted, 0, op.at)
            && r'.reqs[op.at].answeredAt == r.reqs[op.at].answeredAt
  {
  }

  lemma NewStreamIsClients(v: Invokes, t: Table, ctxDone: bool, op: StreamOp, k: Key)
    requires StreamGuard(v, t, ctxDone, op) && k !in t.objs && k in StreamEffect(v, t, ctxDone, op).objs
    ensures k.side.ClientSide?
  {
  }

  lemma LinkAddsNone(cap: nat, e: Endpoint, peer: Io, op: LinkOp)
    requires LinkGuard(cap, e.io, peer, op)
    ensures LinkEffect(cap, e, peer, op).str.objs.Keys == e.str.objs.Keys
  {
    hide Deliver, DoCancel;
  }

  /** Streams that a step adds follow their response, as there is none yet. */
  lemma NewStreamFollows(c: Config, cap: nat, e: Endpoint, p: Endpoint, op: Op, k: Key)
    requires Good(e, p) && Guard(c, cap, e, p.io, op) && k !in e.str.objs
    requires k in Effect(c, cap, e, p.io, op).str.objs
    ensures var e' := Effect(c, cap, e, p.io, op); Follows(e'.srv, e'.str, e'.io.out, e'.io.ctxDone, k)
  {
    hide Local, Shared, StreamEffect, RequestEffect, LinkEffect, CallEffect, RequestOnTable, SentBy;
    match op
    case OfCall(_) =>
    case OfRequest(o) =>
      NewServerStream(c, e.srv, e.str, e.io.ctxDone, |e.io.out|, o, k);
      NotAnsweredAtStart(e, p, o.at);
    case OfStream(o) => NewStreamIsClients(e.inv, e.str, e.io.ctxDone, o, k);
    case OfLink(o) => LinkAddsNone(cap, e, p.io, o);
  }

  lemma NotAnsweredAtStart(e: Endpoint, p: Endpoint, at: nat)
    requires Good(e, p) && HasReq(e.srv, at, Started)
    ensures e.srv.reqs[at].answeredAt.None?
  {
    assert ReqFits(e.srv, e.io.out, at);
  }

  lemma OldStreamFollows(c: Config, cap: nat, e: Endpoint, p: Endpoint, op: Op, k: Key)
    requires Good(e, p) && Guard(c, cap, e, p.io, op) && k in e.str.objs
    requires Follows(e.srv, e.str, e.io.out, e.io.ctxDone, k)
    ensures var e' := Effect(c, cap, e, p.io, op);
            k in e'.str.objs && Follows(e'.srv, e'.str, e'.io.out, e'.io.ctxDone, k)
  {
    assert Local(e) && e.io.read !in e.srv.reqs;
    hide Local, Shared, Follows, StreamEffect, RequestEffect, LinkEffect, CallEffect, RequestOnTable;
    match op
    case OfCall(_) =>
      if k.side.ServerSide? { CreatorIsKnown(e, k); }
      UntouchedFollows(e.srv, e.str, e.io.out, e.io.ctxDone, e.srv, e.str, e.io.out + Emits(e, op), e.io.ctxDone, k);
    case OfRequest(o) => RequestStepFollows(c, e, p, o, k);
    case OfStream(o) => StreamStepFollows(e, o, k);
    case OfLink(o) => LinkStepFollows(cap, e, p.io, o, k);
  }

  lemma StepFollows(c: Config, cap: nat, e: Endpoint, p: Endpoint, op: Op)
    requires Good(e, p) && Guard(c, cap, e, p.io, op) && AllFollow(e)
    ensures AllFollow(Effect(c, cap, e, p.io, op))
  {
    var e' := Effect(c, cap, e, p.io, op);
    hide Good, Guard, Effect, Follows;
    forall k | k in e'.str.objs ensures Follows(e'.srv, e'.str, e'.io.out, e'.io.ctxDone, k) {
      if k in e.str.objs { OldStreamFollows(c, cap, e, p, op, k); } else { NewStreamFollows(c, cap, e, p, op, k); }
    }
  }

  lemma {:induction false} RunFollows(w: World, s: Sys, acts: seq<Action>)
    requires Inv(s) && Good(s.b, s.a) && AllFollow(s.a) && AllFollow(s.b) && Run(w, s, acts).Some?
    ensures AllFollow(Run(w, s, acts).value.a) && AllFollow(Run(w, s, acts).value.b)
    decreases |acts|
  {
    hide Local, Shared, AllFollow, Effect, Guard;
    if acts != [] {
      var act := acts[0];
      StepKeepsInv(w, s, act);
      StepFollows(w.Of(act.x), w.cap, s.Of(act.x), s.Of(PeerOf(act.x)), act.op);
      RunFollows(w, Step(w, s, act), acts[1..]);
    }
  }

  lemma ReachableFollows(w: World, s: Sys, x: End)
    requires Reachable(w, s)
    ensures AllFollow(s.Of(x))
  {
    var acts: seq<Action> :| Run(w, INIT, acts) == Some(s);
    InitHolds();
    RunFollows(w, INIT, acts);
  }

  // ---------------------------------------------------------------- the guarantees

  lemma {:induction false} SentByHas(ps: seq<Packet>, i: nat, k: Key)
    requires i < |ps| && ps[i].StreamPacket? && SenderKey(ps[i].msg) == k
    ensures SentBy(ps, k) != []
    decreases |ps|
  {
    if i < |ps| - 1 { SentByHas(ps[..|ps|-1], i, k); }
  }

  /** Position `j` of the packets holds the response to the request that opened stream `sid`. */
  predicate IsOpened(out: seq<Packet>, j: nat, sid: nat) {
    j < |out| && out[j].Response? && out[j].out == Some(StreamReply(sid)) && out[j].error == ""
  }

  lemma StreamMessageFollows(e: Endpoint, p: Endpoint, i: nat) returns (j: nat)
    requires Good(e, p) && AllFollow(e) && !e.io.ctxDone
    requires i < |e.io.out| && e.io.out[i].StreamPacket? && e.io.out[i].msg.sender == ServerSide
    ensures j < i && IsOpened(e.io.out, j, e.io.out[i].msg.streamId)
  {
    hide Good, AllFollow, SentBy, IsOpened;
    var k := SenderKey(e.io.out[i].msg);
    SentByHas(e.io.out, i, k);
    j := OpenerAnswered(e, p, k);
    if i <= j { SentByHas(e.io.out[..j + 1], i, k); }
  }

  /** A server end that sent something was answered for before. */
  lemma OpenerAnswered(e: Endpoint, p: Endpoint, k: Key) returns (j: nat)
    requires Good(e, p) && AllFollow(e) && !e.io.ctxDone && k.side.ServerSide? && SentBy(e.io.out, k) != []
    ensures j < |e.io.out| && SentBy(e.io.out[..j + 1], k) == [] && IsOpened(e.io.out, j, k.id)
  {
    hide Good, Local, SentBy, IsOpened, AllFollow;
    SenderIsThere(e, p, k);
    CreatorIsKnown(e, k);
    FollowsAt(e, k);
    j := e.srv.reqs[e.str.objs[k].creator].answeredAt.value;
    CreatorsAnswer(e, p, k);
  }

  lemma FollowsAt(e: Endpoint, k: Key)
    requires AllFollow(e) && k in e.str.objs
    ensures Follows(e.srv, e.str, e.io.out, e.io.ctxDone, k)
  {
  }

  lemma SenderIsThere(e: Endpoint, p: Endpoint, k: Key)
    requires Good(e, p) && SentBy(e.io.out, k) != [] && AllFollow(e) && k.side.ServerSide?
    ensures k in e.str.objs && Local(e) && !e.str.objs[k].owner.NotStarted?
  {
    if k !in e.str.objs { SentByNone(e.str, e.io.out, k); }
    assert ObjOk(e.str.objs[k], k, e.io.out, e.io.ctxDone);
    assert Follows(e.srv, e.str, e.io.out, e.io.ctxDone, k);
    assert CreatorFits(e.srv, e.str, k);
  }

  lemma CreatorsAnswer(e: Endpoint, p: Endpoint, k: Key)
    requires Good(e, p) && k in e.str.objs && k.side.ServerSide? && e.str.objs[k].creator in e.srv.reqs
    requires e.srv.reqs[e.str.objs[k].creator].answeredAt.Some?
    ensures IsOpened(e.io.out, e.srv.reqs[e.str.objs[k].creator].answeredAt.value, k.id)
  {
    assert CreatorFits(e.srv, e.str, k);
    assert ReqFits(e.srv, e.io.out, e.str.objs[k].creator);
  }

  /** While the serving endpoint's context is alive, every message of a server end stands behind
      the response that opened its stream. */
  lemma MessagesFollowResponse(w: World, s: Sys, x: End, i: nat)
    requires Reachable(w, s) && !s.Of(x).io.ctxDone
    requires i < |s.Of(x).io.out| && s.Of(x).io.out[i].StreamPacket? && s.Of(x).io.out[i].msg.sender == ServerSide
    ensures exists j :: 0 <= j < i && IsOpened(s.Of(x).io.out, j, s.Of(x).io.out[i].msg.streamId)
  {
    GoodFrom(w, s, x);
    ReachableFollows(w, s, x);
    hide Good, AllFollow, Reachable;
    var j := StreamMessageFollows(s.Of(x), s.Of(PeerOf(x)), i);
  }

  /** So messages of a stream are lost only between reading its response and registering it: when
      one was dropped, the client has read the response. */
  lemma LossNeedsResponse(w: World, s: Sys, x: End, m: StreamMsg)
    requires Reachable(w, s) && !s.Of(PeerOf(x)).io.ctxDone
    requires m.sender == ServerSide && StreamPacket(m) in s.Of(x).str.drops
    requires Key(ClientSide, m.streamId) in s.Of(x).str.objs ==> Key(ClientSide, m.streamId) in s.Of(x).str.live
    ensures exists at :: at in s.Of(x).inv.resps && s.Of(x).inv.resps[at].out == Some(StreamReply(m.streamId))
  {
    GoodFrom(w, s, x);
    GoodFrom(w, s, PeerOf(x));
    ReachableFollows(w, s, PeerOf(x));
    hide Good, AllFollow, Reachable;
    var i := DroppedIsRead(s.Of(x), s.Of(PeerOf(x)), m);
    var j := StreamMessageFollows(s.Of(PeerOf(x)), s.Of(x), i);
    ReadIsKnown(s.Of(x), s.Of(PeerOf(x)), j);
  }

  lemma ReadIsKnown(e: Endpoint, p: Endpoint, j: nat)
    requires Good(e, p) && j < e.io.read && j < |p.io.out| && p.io.out[j].Response?
    ensures j in e.inv.resps && e.inv.resps[j].out == p.io.out[j].out
  {
  }

  lemma DroppedIsRead(e: Endpoint, p: Endpoint, m: StreamMsg) returns (i: nat)
    requires Good(e, p) && m.sender == ServerSide && StreamPacket(m) in e.str.drops
    requires Key(ClientSide, m.streamId) in e.str.objs ==> Key(ClientSide, m.streamId) in e.str.live
    ensures i < e.io.read && i < |p.io.out| && p.io.out[i] == StreamPacket(m)
  {
    hide Good, SentBy;
    DroppedWasTaken(e, p, m);
    i := SentIsThere(p.io.out[..e.io.read], Key(ServerSide, m.streamId), m);
  }

  lemma {:induction false} SentIsThere(ps: seq<Packet>, k: Key, m: StreamMsg) returns (i: nat)
    requires m in SentBy(ps, k)
    ensures i < |ps| && ps[i] == StreamPacket(m)
    decreases |ps|
  {
    i := |ps| - 1;
    if m in SentBy(ps[..i], k) { i := SentIsThere(ps[..i], k, m); }
  }

  lemma DroppedWasTaken(e: Endpoint, p: Endpoint, m: StreamMsg)
    requires Good(e, p) && m.sender == ServerSide && StreamPacket(m) in e.str.drops
    requires Key(ClientSide, m.streamId) in e.str.objs ==> Key(ClientSide, m.streamId) in e.str.live
    ensures e.io.read <= |p.io.out| && m in SentBy(p.io.out[..e.io.read], Key(ServerSide, m.streamId))
  {
    var ck := Key(ClientSide, m.streamId);
    assert RecvFits(e.str, p.io.out[..e.io.read], ck);
    hide Good, SentBy;
    assert Mirror(ck) == Key(ServerSide, m.streamId);
    var n: nat :| n < |e.str.drops| && e.str.drops[n] == StreamPacket(m);
    MemberIsSent(e.str.drops, n, Mirror(ck));
  }

  lemma {:induction false} MemberIsSent(ps: seq<Packet>, n: nat, k: Key)
    requires n < |ps| && ps[n].StreamPacket? && SenderKey(ps[n].msg) == k
    ensures ps[n].msg in SentBy(ps, k)
    decreases |ps|
  {
    if n < |ps| - 1 { MemberIsSent(ps[..|ps|-1], n, k); }
  }
}
