/** What every step keeps about the packets of one direction and the goroutines at both of
    its ends: which call issued a packet, which goroutine a packet started, which request a
    response answers (xrpc/conn.go:287-471 and 584-654). */
module WireInvariants {
  import opened Packets
  import opened Protocol
  import opened CallInvariants

  // ---------------------------------------------------------------- packets and their calls

  predicate NotSentYet(pc: CallPc) {
    pc.Fresh? || pc.RegLock? || pc.Registered?
  }

  predicate Left(pc: CallPc) {
    pc.Leaving? || pc.DelLock? || pc.Returned?
  }

  /** A call knows where its request stands, and has none before the hand-off. */
  predicate SentFits(v: Invokes, out: seq<Packet>, id: nat)
    requires id in v.calls
  {
    var c := v.calls[id];
    && (c.pc.Handed? || c.pc.Waiting? || c.pc.Cancelling? ==> c.sentAt.Some?)
    && (c.sentAt.Some? ==>
          !NotSentYet(c.pc) && c.sentAt.value < |out| &&
          out[c.sentAt.value] == Request(RequestOf(id, c)))
  }

  /** A request was issued by the one call of its id; a CtxCancel follows its request. */
  predicate IssuedFits(v: Invokes, out: seq<Packet>, i: nat)
    requires i < |out|
  {
    match out[i]
    case Request(q) =>
      q.id in v.calls && v.calls[q.id].sentAt == Some(i) && q == RequestOf(q.id, v.calls[q.id])
    case CtxCancel(id, _) =>
      id in v.calls && v.calls[id].sentAt.Some? && v.calls[id].sentAt.value < i && Left(v.calls[id].pc)
    case _ => true
  }

  ghost predicate IssuedOk(v: Invokes, out: seq<Packet>) {
    && (forall id | id in v.calls :: SentFits(v, out, id))
    && (forall i | 0 <= i < |out| :: IssuedFits(v, out, i))
  }

  lemma SentFitsKept(v: Invokes, ctxDone: bool, out: seq<Packet>, op: CallOp, id: nat)
    requires CallGuard(v, ctxDone, op) && id in CallEffect(v, ctxDone, |out|, op).calls
    requires id in v.calls ==> SentFits(v, out, id)
    requires Subject(v, op) in v.calls ==> SentFits(v, out, Subject(v, op)) && CallFits(v, Subject(v, op))
    requires v.lastId + 1 !in v.calls
    ensures SentFits(CallEffect(v, ctxDone, |out|, op), out + CallEmits(v, op), id)
  {
    hide SentFits, CallEffect, CallEmits;
    if TakesId(op) || MovesLock(op) { SentFitsAfterLock(v, ctxDone, out, op, id); }
    else { SentFitsAfterMove(v, ctxDone, out, op, id); }
  }

  lemma SentFitsAfterLock(v: Invokes, ctxDone: bool, out: seq<Packet>, op: CallOp, id: nat)
    requires (TakesId(op) || MovesLock(op)) && CallGuard(v, ctxDone, op)
    requires id in CallEffect(v, ctxDone, |out|, op).calls
    requires id in v.calls ==> SentFits(v, out, id)
    requires v.lastId + 1 !in v.calls
    ensures SentFits(CallEffect(v, ctxDone, |out|, op), out + CallEmits(v, op), id)
  {
    hide SentFits, CallEffect;
    if TakesId(op) { SentFitsAfterId(v, ctxDone, out, op, id); } else { SentFitsAfterGrant(v, ctxDone, out, op, id); }
  }

  lemma SentFitsAfterId(v: Invokes, ctxDone: bool, out: seq<Packet>, op: CallOp, id: nat)
    requires TakesId(op) && CallGuard(v, ctxDone, op) && id in CallEffect(v, ctxDone, |out|, op).calls
    requires (id in v.calls ==> SentFits(v, out, id)) && v.lastId + 1 !in v.calls
    ensures SentFits(CallEffect(v, ctxDone, |out|, op), out + CallEmits(v, op), id)
  {
  }

  lemma SentFitsAfterGrant(v: Invokes, ctxDone: bool, out: seq<Packet>, op: CallOp, id: nat)
    requires MovesLock(op) && CallGuard(v, ctxDone, op) && id in CallEffect(v, ctxDone, |out|, op).calls
    requires id in v.calls ==> SentFits(v, out, id)
    ensures SentFits(CallEffect(v, ctxDone, |out|, op), out + CallEmits(v, op), id)
  {
    assert out + CallEmits(v, op) == out;
    hide CallEmits, SentFits;
    if op.Announce? { SentFitsAfterAnnounce(v, out, op.id, id); } else { SentFitsGranted(v, out, op.id, id); }
  }

  lemma SentFitsAfterAnnounce(v: Invokes, out: seq<Packet>, locker: nat, id: nat)
    requires CanAnnounce(v, locker) && id in v.calls && SentFits(v, out, id)
    ensures SentFits(DoAnnounce(v, locker), out, id)
  {
  }

  lemma SentFitsGranted(v: Invokes, out: seq<Packet>, locker: nat, id: nat)
    requires CanGrant(v, locker) && id in v.calls && SentFits(v, out, id)
    ensures SentFits(DoGrant(v, locker), out, id)
  {
  }

  lemma SentFitsAfterMove(v: Invokes, ctxDone: bool, out: seq<Packet>, op: CallOp, id: nat)
    requires !TakesId(op) && !MovesLock(op) && CallGuard(v, ctxDone, op)
    requires id in CallEffect(v, ctxDone, |out|, op).calls
    requires id in v.calls ==> SentFits(v, out, id)
    requires Subject(v, op) in v.calls ==> SentFits(v, out, Subject(v, op)) && CallFits(v, Subject(v, op))
    ensures SentFits(CallEffect(v, ctxDone, |out|, op), out + CallEmits(v, op), id)
  {
  }

  lemma IssuedFitsKept(v: Invokes, ctxDone: bool, out: seq<Packet>, op: CallOp, i: nat)
    requires CallGuard(v, ctxDone, op) && i < |out| && IssuedFits(v, out, i)
    requires Subject(v, op) in v.calls ==> SentFits(v, out, Subject(v, op))
    requires v.lastId + 1 !in v.calls
    ensures IssuedFits(CallEffect(v, ctxDone, |out|, op), out + CallEmits(v, op), i)
  {
    hide IssuedFits, SentFits, CallEffect, CallGuard, CallEmits;
    if MovesLock(op) { IssuedFitsAfterLock(v, ctxDone, out, op, i); }
    else { IssuedFitsAfterMove(v, ctxDone, out, op, i); }
  }

  lemma IssuedFitsAfterLock(v: Invokes, ctxDone: bool, out: seq<Packet>, op: CallOp, i: nat)
    requires MovesLock(op) && CallGuard(v, ctxDone, op) && i < |out| && IssuedFits(v, out, i)
    ensures IssuedFits(CallEffect(v, ctxDone, |out|, op), out + CallEmits(v, op), i)
  {
    assert out + CallEmits(v, op) == out;
    hide CallEmits;
  }

  lemma IssuedFitsAfterMove(v: Invokes, ctxDone: bool, out: seq<Packet>, op: CallOp, i: nat)
    requires !MovesLock(op) && CallGuard(v, ctxDone, op) && i < |out| && IssuedFits(v, out, i)
    requires Subject(v, op) in v.calls ==> SentFits(v, out, Subject(v, op))
    requires v.lastId + 1 !in v.calls
    ensures IssuedFits(CallEffect(v, ctxDone, |out|, op), out + CallEmits(v, op), i)
  {
  }

  lemma NewIssuedFits(v: Invokes, ctxDone: bool, out: seq<Packet>, op: CallOp)
    requires CallGuard(v, ctxDone, op) && CallEmits(v, op) != []
    requires Subject(v, op) in v.calls ==> SentFits(v, out, Subject(v, op)) && CallFits(v, Subject(v, op))
    ensures |CallEmits(v, op)| == 1
    ensures IssuedFits(CallEffect(v, ctxDone, |out|, op), out + CallEmits(v, op), |out|)
  {
  }

  lemma IssuedKept(v: Invokes, ctxDone: bool, out: seq<Packet>, op: CallOp)
    requires CallsOk(v) && IssuedOk(v, out) && CallGuard(v, ctxDone, op)
    ensures IssuedOk(CallEffect(v, ctxDone, |out|, op), out + CallEmits(v, op))
  {
    var w, out' := CallEffect(v, ctxDone, |out|, op), out + CallEmits(v, op);
    assert v.lastId + 1 !in v.calls;
    hide CallFits, SentFits, IssuedFits, OpensOk, KnownCalls, ReadersOk;
    forall id | id in w.calls ensures SentFits(w, out', id) {
      SentFitsKept(v, ctxDone, out, op, id);
    }
    if CallEmits(v, op) != [] { NewIssuedFits(v, ctxDone, out, op); }
    forall i | 0 <= i < |out'| ensures IssuedFits(w, out', i) {
      if i < |out| { IssuedFitsKept(v, ctxDone, out, op, i); }
    }
  }

  /** Packets of the other kinds do not concern the calls. */
  lemma IssuedAppend(v: Invokes, out: seq<Packet>, ps: seq<Packet>)
    requires IssuedOk(v, out) && forall p | p in ps :: p.Response? || p.StreamPacket?
    ensures IssuedOk(v, out + ps)
  {
    var out' := out + ps;
    forall id | id in v.calls ensures SentFits(v, out', id) {
      assert SentFits(v, out, id);
    }
    forall i | 0 <= i < |out'| ensures IssuedFits(v, out', i) {
      if i < |out| { assert IssuedFits(v, out, i); } else { assert out'[i] in ps; }
    }
  }

  // ---------------------------------------------------------------- packets and their goroutines

  /** The goroutines started by responses are those of the responses read so far. */
  ghost predicate RespsOk(v: Invokes, read: nat, peerOut: seq<Packet>) {
    && read <= |peerOut|
    && (forall k :: k in v.resps <==> 0 <= k < read && peerOut[k].Response?)
    && (forall k | k in v.resps :: peerOut[k] == Response(v.resps[k].id, v.resps[k].out, v.resps[k].error))
  }

  ghost predicate ReqsOk(r: Requests, read: nat, peerOut: seq<Packet>) {
    && read <= |peerOut|
    && (forall k :: k in r.reqs <==> 0 <= k < read && peerOut[k].Request?)
    && (forall k | k in r.reqs :: peerOut[k] == Request(r.reqs[k].req))
  }

  /** The response a processRequest goroutine gives. */
  predicate Answers(q: Req, out: Option<Output>, error: string) {
    if q.req.service == "" then
      q.req.input.OpenStream? && out == Some(StreamReply(q.req.input.streamId)) && error == ""
    else
      q.outcome.Some? && (out, error) == ReplyOf(q.outcome.value) && !q.req.isNotification
  }

  predicate ReqFits(r: Requests, out: seq<Packet>, k: nat)
    requires k in r.reqs
  {
    var q := r.reqs[k];
    && (q.pc.Running? || q.pc.Ran? || q.pc.Removing? ==> q.req.service != "")
    && (q.pc.Started? || q.pc.Running? ==> q.outcome.None?)
    && (q.pc.Ran? ==> q.outcome.Some?)
    && (q.pc.Responding? ==> Answers(q, q.pc.out, q.pc.error))
    && (!q.pc.Removing? && !q.pc.Finished? ==> q.answeredAt.None?)
    && (q.answeredAt.Some? ==>
          var j := q.answeredAt.value;
          j in r.answeredBy && r.answeredBy[j] == k && j < |out| && out[j].Response? &&
          out[j].id == q.req.id && Answers(q, out[j].out, out[j].error))
  }

  /** A response answers one request, which has no other response. */
  predicate AnswerFits(r: Requests, out: seq<Packet>, j: nat)
    requires j < |out|
  {
    out[j].Response? ==>
      j in r.answeredBy && r.answeredBy[j] in r.reqs && r.reqs[r.answeredBy[j]].answeredAt == Some(j)
  }

  ghost predicate AnswersOk(r: Requests, out: seq<Packet>) {
    && (forall k | k in r.reqs :: ReqFits(r, out, k))
    && (forall j | 0 <= j < |out| :: AnswerFits(r, out, j))
    && (forall j | j in r.answeredBy :: j < |out|)
  }

  lemma ReqFitsKept(c: Config, r: Requests, ctxDone: bool, out: seq<Packet>, op: RequestOp, k: nat)
    requires RequestGuard(c, r, ctxDone, op) && k in r.reqs
    requires ReqFits(r, out, k) && ReqFits(r, out, op.at)
    requires |out| !in r.answeredBy
    ensures k in RequestEffect(c, r, ctxDone, |out|, op).reqs
    ensures ReqFits(RequestEffect(c, r, ctxDone, |out|, op), out + RequestEmits(r, op), k)
  {
    hide ReqFits, RequestEmits;
    if op.Respond? { ReqFitsAfterRespond(c, r, ctxDone, out, op, k); }
    else { ReqFitsAfterMove(c, r, ctxDone, out, op, k); }
  }

  lemma ReqFitsAfterRespond(c: Config, r: Requests, ctxDone: bool, out: seq<Packet>, op: RequestOp, k: nat)
    requires op.Respond? && RequestGuard(c, r, ctxDone, op) && k in r.reqs
    requires ReqFits(r, out, k) && ReqFits(r, out, op.at)
    requires |out| !in r.answeredBy
    ensures k in RequestEffect(c, r, ctxDone, |out|, op).reqs
    ensures ReqFits(RequestEffect(c, r, ctxDone, |out|, op), out + RequestEmits(r, op), k)
  {
  }

  lemma ReqFitsAfterMove(c: Config, r: Requests, ctxDone: bool, out: seq<Packet>, op: RequestOp, k: nat)
    requires !op.Respond? && RequestGuard(c, r, ctxDone, op) && k in r.reqs
    requires ReqFits(r, out, k) && ReqFits(r, out, op.at)
    ensures k in RequestEffect(c, r, ctxDone, |out|, op).reqs
    ensures ReqFits(RequestEffect(c, r, ctxDone, |out|, op), out + RequestEmits(r, op), k)
  {
    assert out + RequestEmits(r, op) == out;
    hide RequestEmits, Answers;
    ReqFitsAfterStep(c, r, ctxDone, out, op, k);
  }

  lemma ReqFitsAfterStep(c: Config, r: Requests, ctxDone: bool, out: seq<Packet>, op: RequestOp, k: nat)
    requires !op.Respond? && RequestGuard(c, r, ctxDone, op) && k in r.reqs
    requires ReqFits(r, out, k) && ReqFits(r, out, op.at)
    ensures k in RequestEffect(c, r, ctxDone, |out|, op).reqs
    ensures ReqFits(RequestEffect(c, r, ctxDone, |out|, op), out, k)
  {
    hide ReqFits;
    if op.Accept? { ReqFitsAfterAccept(c, r, out, op.at, k); }
    else { ReqFitsLater(c, r, ctxDone, out, op, k); }
  }

  lemma ReqFitsAfterAccept(c: Config, r: Requests, out: seq<Packet>, at: nat, k: nat)
    requires HasReq(r, at, Started) && k in r.reqs && ReqFits(r, out, k) && ReqFits(r, out, at)
    ensures k in DoAccept(c, r, at).reqs && ReqFits(DoAccept(c, r, at), out, k)
  {
    hide ReqFits;
    if k == at { AcceptedFits(c, r, out, at); } else { OthersFitAfterAccept(c, r, out, at, k); }
  }

  lemma AcceptedFits(c: Config, r: Requests, out: seq<Packet>, at: nat)
    requires HasReq(r, at, Started) && ReqFits(r, out, at)
    ensures at in DoAccept(c, r, at).reqs && ReqFits(DoAccept(c, r, at), out, at)
  {
  }

  lemma OthersFitAfterAccept(c: Config, r: Requests, out: seq<Packet>, at: nat, k: nat)
    requires HasReq(r, at, Started) && k in r.reqs && k != at && ReqFits(r, out, k)
    ensures k in DoAccept(c, r, at).reqs && ReqFits(DoAccept(c, r, at), out, k)
  {
    hide ResolvesStream, ResolvesUnary;
  }

  lemma ReqFitsLater(c: Config, r: Requests, ctxDone: bool, out: seq<Packet>, op: RequestOp, k: nat)
    requires !op.Respond? && !op.Accept? && RequestGuard(c, r, ctxDone, op) && k in r.reqs
    requires ReqFits(r, out, k) && ReqFits(r, out, op.at)
    ensures k in RequestEffect(c, r, ctxDone, |out|, op).reqs
    ensures ReqFits(RequestEffect(c, r, ctxDone, |out|, op), out, k)
  {
  }

  lemma AnswerFitsKept(c: Config, r: Requests, ctxDone: bool, out: seq<Packet>, op: RequestOp, j: nat)
    requires RequestGuard(c, r, ctxDone, op) && j < |out + RequestEmits(r, op)|
    requires j < |out| ==> AnswerFits(r, out, j)
    requires ReqFits(r, out, op.at)
    ensures AnswerFits(RequestEffect(c, r, ctxDone, |out|, op), out + RequestEmits(r, op), j)
  {
  }

  lemma AnswersKept(c: Config, r: Requests, ctxDone: bool, out: seq<Packet>, op: RequestOp)
    requires AnswersOk(r, out) && RequestGuard(c, r, ctxDone, op)
    ensures AnswersOk(RequestEffect(c, r, ctxDone, |out|, op), out + RequestEmits(r, op))
  {
    var w, out' := RequestEffect(c, r, ctxDone, |out|, op), out + RequestEmits(r, op);
    assert |out| !in r.answeredBy && op.at in r.reqs && w.reqs.Keys == r.reqs.Keys;
    assert forall j | j in w.answeredBy :: j < |out'|;
    hide ReqFits, AnswerFits;
    forall k | k in w.reqs ensures ReqFits(w, out', k) {
      ReqFitsKept(c, r, ctxDone, out, op, k);
    }
    forall j | 0 <= j < |out'| ensures AnswerFits(w, out', j) {
      AnswerFitsKept(c, r, ctxDone, out, op, j);
    }
  }

  lemma AnswersAppend(r: Requests, out: seq<Packet>, ps: seq<Packet>)
    requires AnswersOk(r, out) && forall p | p in ps :: !p.Response?
    ensures AnswersOk(r, out + ps)
  {
    var out' := out + ps;
    forall k | k in r.reqs ensures ReqFits(r, out', k) {
      assert ReqFits(r, out, k);
    }
    forall j | 0 <= j < |out'| ensures AnswerFits(r, out', j) {
      if j < |out| { assert AnswerFits(r, out, j); } else { assert out'[j] in ps; }
    }
  }

  lemma SpawnReqKeeps(r: Requests, out: seq<Packet>, at: nat, req: RequestMsg)
    requires AnswersOk(r, out) && at !in r.reqs
    ensures AnswersOk(SpawnReq(r, at, req), out)
  {
    var w := SpawnReq(r, at, req);
    forall k | k in w.reqs ensures ReqFits(w, out, k) {
      assert k in r.reqs ==> ReqFits(r, out, k);
    }
    forall j | 0 <= j < |out| ensures AnswerFits(w, out, j) {
      assert AnswerFits(r, out, j);
    }
  }

  lemma CancelKeeps(r: Requests, out: seq<Packet>, id: nat, cause: string)
    requires AnswersOk(r, out)
    ensures AnswersOk(DoCancel(r, id, cause), out)
  {
    var w := DoCancel(r, id, cause);
    forall k | k in w.reqs ensures ReqFits(w, out, k) {
      assert ReqFits(r, out, k);
    }
    forall j | 0 <= j < |out| ensures AnswerFits(w, out, j) {
      assert AnswerFits(r, out, j);
    }
  }

  // ---------------------------------------------------------------- delivered results

  function RetOf(pc: CallPc): Option<Ret> {
    if Left(pc) then Some(pc.ret) else None
  }

  /** A call that ended through its channel got the response it names; only notifications end
      with the hand-off. */
  predicate GotFits(v: Invokes, id: nat)
    requires id in v.calls
  {
    var ret := RetOf(v.calls[id].pc);
    && (ret == Some(Sent) ==> v.calls[id].kind.Notify?)
    && (ret.Some? && ret.value.FromChannel? ==>
          ret.value.at in v.resps &&
          v.resps[ret.value.at] == Resp(id, ret.value.out, ret.value.error, Delivered))
  }

  /** A response taken from a channel is the one its call ended with. */
  predicate DeliveredFits(v: Invokes, at: nat)
    requires at in v.resps
  {
    var r := v.resps[at];
    r.pc.Delivered? ==>
      r.id in v.calls && RetOf(v.calls[r.id].pc) == Some(FromChannel(at, r.out, r.error))
  }

  ghost predicate ResultsOk(v: Invokes) {
    && (forall id | id in v.calls :: GotFits(v, id))
    && (forall at | at in v.resps :: DeliveredFits(v, at))
  }

  lemma GotFitsKept(v: Invokes, ctxDone: bool, pos: nat, op: CallOp, id: nat)
    requires CallGuard(v, ctxDone, op) && id in CallEffect(v, ctxDone, pos, op).calls
    requires id in v.calls ==> GotFits(v, id)
    requires Subject(v, op) in v.calls ==> GotFits(v, Subject(v, op))
    requires v.lastId + 1 !in v.calls
    ensures GotFits(CallEffect(v, ctxDone, pos, op), id)
  {
    hide GotFits, CallEffect;
    if TakesId(op) || MovesLock(op) { GotFitsAfterLock(v, ctxDone, pos, op, id); }
    else { GotFitsAfterMove(v, ctxDone, pos, op, id); }
  }

  lemma GotFitsAfterLock(v: Invokes, ctxDone: bool, pos: nat, op: CallOp, id: nat)
    requires (TakesId(op) || MovesLock(op)) && CallGuard(v, ctxDone, op) && id in CallEffect(v, ctxDone, pos, op).calls
    requires id in v.calls ==> GotFits(v, id)
    requires v.lastId + 1 !in v.calls
    ensures GotFits(CallEffect(v, ctxDone, pos, op), id)
  {
    hide GotFits, CallEffect, CallGuard;
    if TakesId(op) { GotFitsAfterId(v, ctxDone, pos, op, id); } else { GotFitsAfterGrant(v, ctxDone, pos, op, id); }
  }

  lemma GotFitsAfterId(v: Invokes, ctxDone: bool, pos: nat, op: CallOp, id: nat)
    requires TakesId(op) && CallGuard(v, ctxDone, op) && id in CallEffect(v, ctxDone, pos, op).calls
    requires (id in v.calls ==> GotFits(v, id)) && v.lastId + 1 !in v.calls
    ensures GotFits(CallEffect(v, ctxDone, pos, op), id)
  {
  }

  lemma GotFitsAfterGrant(v: Invokes, ctxDone: bool, pos: nat, op: CallOp, id: nat)
    requires MovesLock(op) && CallGuard(v, ctxDone, op) && id in CallEffect(v, ctxDone, pos, op).calls
    requires id in v.calls ==> GotFits(v, id)
    ensures GotFits(CallEffect(v, ctxDone, pos, op), id)
  {
    hide GotFits;
    if op.Announce? { GotFitsAnnounced(v, op.id, id); } else { GotFitsGranted(v, op.id, id); }
  }

  lemma GotFitsAnnounced(v: Invokes, locker: nat, id: nat)
    requires CanAnnounce(v, locker) && id in v.calls && GotFits(v, id)
    ensures GotFits(DoAnnounce(v, locker), id)
  {
  }

  lemma GotFitsGranted(v: Invokes, locker: nat, id: nat)
    requires CanGrant(v, locker) && id in v.calls && GotFits(v, id)
    ensures GotFits(DoGrant(v, locker), id)
  {
  }

  lemma GotFitsAfterMove(v: Invokes, ctxDone: bool, pos: nat, op: CallOp, id: nat)
    requires !TakesId(op) && !MovesLock(op) && CallGuard(v, ctxDone, op) && id in CallEffect(v, ctxDone, pos, op).calls
    requires id in v.calls ==> GotFits(v, id)
    requires Subject(v, op) in v.calls ==> GotFits(v, Subject(v, op))
    ensures GotFits(CallEffect(v, ctxDone, pos, op), id)
  {
  }

  lemma DeliveredFitsKept(v: Invokes, ctxDone: bool, pos: nat, op: CallOp, at: nat)
    requires CallGuard(v, ctxDone, op) && at in v.resps && DeliveredFits(v, at)
    requires v.lastId + 1 !in v.calls
    ensures at in CallEffect(v, ctxDone, pos, op).resps
    ensures DeliveredFits(CallEffect(v, ctxDone, pos, op), at)
  {
    hide DeliveredFits, CallEffect, CallGuard;
    if op.LockResponse? || op.HandOver? { DeliveredFitsResponding(v, ctxDone, pos, op, at); }
    else { DeliveredFitsAfterCall(v, ctxDone, pos, op, at); }
  }

  lemma DeliveredFitsResponding(v: Invokes, ctxDone: bool, pos: nat, op: CallOp, at: nat)
    requires CallGuard(v, ctxDone, op) && at in v.resps && DeliveredFits(v, at) && (op.LockResponse? || op.HandOver?)
    ensures at in CallEffect(v, ctxDone, pos, op).resps
    ensures DeliveredFits(CallEffect(v, ctxDone, pos, op), at)
  {
  }

  lemma DeliveredFitsAfterCall(v: Invokes, ctxDone: bool, pos: nat, op: CallOp, at: nat)
    requires CallGuard(v, ctxDone, op) && at in v.resps && DeliveredFits(v, at) && !op.LockResponse? && !op.HandOver?
    requires v.lastId + 1 !in v.calls
    ensures at in CallEffect(v, ctxDone, pos, op).resps
    ensures DeliveredFits(CallEffect(v, ctxDone, pos, op), at)
  {
    hide DeliveredFits;
    if TakesId(op) || MovesLock(op) { DeliveredFitsAfterLock(v, ctxDone, pos, op, at); }
    else { DeliveredFitsAfterMove(v, ctxDone, pos, op, at); }
  }

  lemma DeliveredFitsAfterLock(v: Invokes, ctxDone: bool, pos: nat, op: CallOp, at: nat)
    requires CallGuard(v, ctxDone, op) && at in v.resps && DeliveredFits(v, at) && (TakesId(op) || MovesLock(op))
    requires v.lastId + 1 !in v.calls
    ensures at in CallEffect(v, ctxDone, pos, op).resps
    ensures DeliveredFits(CallEffect(v, ctxDone, pos, op), at)
  {
  }

  lemma DeliveredFitsAfterMove(v: Invokes, ctxDone: bool, pos: nat, op: CallOp, at: nat)
    requires CallGuard(v, ctxDone, op) && at in v.resps && DeliveredFits(v, at)
    requires !TakesId(op) && !MovesLock(op) && !op.LockResponse? && !op.HandOver?
    ensures at in CallEffect(v, ctxDone, pos, op).resps
    ensures DeliveredFits(CallEffect(v, ctxDone, pos, op), at)
  {
  }

  lemma ResultsKept(v: Invokes, ctxDone: bool, pos: nat, op: CallOp)
    requires CallsOk(v) && ResultsOk(v) && CallGuard(v, ctxDone, op)
    ensures ResultsOk(CallEffect(v, ctxDone, pos, op))
  {
    var w := CallEffect(v, ctxDone, pos, op);
    assert v.lastId + 1 !in v.calls && w.resps.Keys == v.resps.Keys;
    hide GotFits, DeliveredFits, CallFits, OpensOk, KnownCalls, ReadersOk;
    forall id | id in w.calls ensures GotFits(w, id) {
      GotFitsKept(v, ctxDone, pos, op, id);
    }
    forall at | at in w.resps ensures DeliveredFits(w, at) {
      DeliveredFitsKept(v, ctxDone, pos, op, at);
    }
  }

  lemma SpawnRespKeepsResults(v: Invokes, at: nat, r: Resp)
    requires ResultsOk(v) && at !in v.resps && r.pc.Arrived?
    ensures ResultsOk(SpawnResp(v, at, r))
  {
    var w := SpawnResp(v, at, r);
    forall id | id in w.calls ensures GotFits(w, id) {
      assert GotFits(v, id);
    }
    forall k | k in w.resps ensures DeliveredFits(w, k) {
      assert k in v.resps ==> DeliveredFits(v, k);
    }
  }

  // ---------------------------------------------------------------- cancel entries

  /** The request has an entry in `cancels`. */
  predicate Cancellable(q: Req) {
    q.req.service != "" && (q.pc.Running? || q.pc.Ran? || q.pc.Responding? || q.pc.Removing?)
  }

  predicate EntryFits(r: Requests, id: nat)
    requires id in r.cancels
  {
    var entry := r.cancels[id];
    && !entry.cancelled
    && entry.target in r.reqs && r.reqs[entry.target].req.id == id
    && Cancellable(r.reqs[entry.target])
  }

  predicate HasEntry(r: Requests, k: nat)
    requires k in r.reqs
  {
    var id := r.reqs[k].req.id;
    Cancellable(r.reqs[k]) ==> id in r.cancels && r.cancels[id].target == k
  }

  ghost predicate CancelsOk(r: Requests) {
    && (forall id | id in r.cancels :: EntryFits(r, id))
    && (forall k | k in r.reqs :: HasEntry(r, k))
  }

  ghost predicate UniqueIds(r: Requests) {
    forall k, l | k in r.reqs && l in r.reqs && r.reqs[k].req.id == r.reqs[l].req.id :: k == l
  }

  lemma EntryFitsKept(c: Config, r: Requests, ctxDone: bool, out: seq<Packet>, op: RequestOp, id: nat)
    requires RequestGuard(c, r, ctxDone, op) && id in RequestEffect(c, r, ctxDone, |out|, op).cancels
    requires id in r.cancels ==> EntryFits(r, id)
    requires HasEntry(r, op.at) && ReqFits(r, out, op.at)
    ensures EntryFits(RequestEffect(c, r, ctxDone, |out|, op), id)
  {
  }

  lemma HasEntryKept(c: Config, r: Requests, ctxDone: bool, out: seq<Packet>, op: RequestOp, k: nat)
    requires RequestGuard(c, r, ctxDone, op) && k in r.reqs
    requires HasEntry(r, k) && HasEntry(r, op.at) && ReqFits(r, out, op.at)
    requires r.reqs[k].req.id == r.reqs[op.at].req.id ==> k == op.at
    ensures k in RequestEffect(c, r, ctxDone, |out|, op).reqs
    ensures HasEntry(RequestEffect(c, r, ctxDone, |out|, op), k)
  {
  }

  lemma RequestKeys(c: Config, r: Requests, ctxDone: bool, pos: nat, op: RequestOp)
    requires RequestGuard(c, r, ctxDone, op)
    ensures op.at in r.reqs && RequestEffect(c, r, ctxDone, pos, op).reqs.Keys == r.reqs.Keys
  {
  }

  lemma CancelsKept(c: Config, r: Requests, ctxDone: bool, out: seq<Packet>, op: RequestOp)
    requires CancelsOk(r) && AnswersOk(r, out) && UniqueIds(r) && RequestGuard(c, r, ctxDone, op)
    ensures CancelsOk(RequestEffect(c, r, ctxDone, |out|, op))
  {
    RequestKeys(c, r, ctxDone, |out|, op);
    hide ReqFits, AnswerFits, HasEntry, EntryFits, RequestEffect;
    var w := RequestEffect(c, r, ctxDone, |out|, op);
    forall id | id in w.cancels ensures EntryFits(w, id) {
      EntryFitsKept(c, r, ctxDone, out, op, id);
    }
    forall k | k in w.reqs ensures HasEntry(w, k) {
      HasEntryKept(c, r, ctxDone, out, op, k);
    }
  }

  lemma SpawnReqKeepsCancels(r: Requests, at: nat, req: RequestMsg)
    requires CancelsOk(r) && at !in r.reqs
    ensures CancelsOk(SpawnReq(r, at, req))
  {
    var w := SpawnReq(r, at, req);
    forall id | id in w.cancels ensures EntryFits(w, id) {
      assert EntryFits(r, id);
    }
    forall k | k in w.reqs ensures HasEntry(w, k) {
      assert k in r.reqs ==> HasEntry(r, k);
    }
  }

  lemma CancelKeepsCancels(r: Requests, id: nat, cause: string)
    requires CancelsOk(r)
    ensures CancelsOk(DoCancel(r, id, cause))
  {
    var w := DoCancel(r, id, cause);
    forall i | i in w.cancels ensures EntryFits(w, i) {
      assert EntryFits(r, i);
    }
    forall k | k in w.reqs ensures HasEntry(w, k) {
      assert HasEntry(r, k);
    }
  }
}
