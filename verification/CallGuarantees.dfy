/** What callers can rely on in every reachable state: a result belongs to its call, a request
    has at most one response, the result channels are never misused, and what a CtxCancel does
    and does not do. */
module CallGuarantees {
  import opened Packets
  import opened Protocol
  import opened CallInvariants
  import opened WireInvariants
  import opened Invariants

  lemma GoodFrom(w: World, s: Sys, x: End)
    requires Reachable(w, s)
    ensures Good(s.Of(x), s.Of(PeerOf(x)))
  {
    ReachableInv(w, s);
    hide Local, Shared;
  }

  /** A response carries the handler's message, or the text of its error. */
  predicate Conveys(out: Option<Output>, error: string, outcome: Outcome) {
    match outcome
    case Replied(any) => out == Some(Reply(any)) && error == ""
    case Failed(text) => out == None && error == text
  }

  /** `run` is the one handler run for call `id`: it got what the call sent, and what it produced
      is what the call returned. */
  ghost predicate RanFor(reqs: map<nat, Req>, run: nat, id: nat, c: Call, ret: Ret)
    requires ret.FromChannel?
  {
    && run in reqs && reqs[run].req.id == id && reqs[run].req.service == c.service
    && reqs[run].req.methodName == c.methodName && reqs[run].req.input == c.input
    && (forall other | other in reqs && reqs[other].req.id == id :: other == run)
    && reqs[run].answeredAt == Some(ret.at)
    && (c.service != "" ==> reqs[run].outcome.Some? && Conveys(ret.out, ret.error, reqs[run].outcome.value))
    && (c.service == "" ==> c.kind.Opens? && ret.out == Some(StreamReply(c.kind.streamId)) && ret.error == "")
  }

  /** Whatever the order in which responses arrive and are processed, an Invoke that returns
      through its channel returns what the one handler run for its own request produced: the
      run that got the call's id, service, method and input. */
  lemma CallCorrelation(w: World, s: Sys, x: End, id: nat)
    requires Reachable(w, s)
    requires id in s.Of(x).inv.calls && s.Of(x).inv.calls[id].pc.Returned?
    requires s.Of(x).inv.calls[id].pc.ret.FromChannel?
    ensures var c := s.Of(x).inv.calls[id];
            exists run :: RanFor(s.Of(PeerOf(x)).srv.reqs, run, id, c, c.pc.ret)
  {
    GoodFrom(w, s, x);
    GoodFrom(w, s, PeerOf(x));
    ReturnedWhatRan(s.Of(x), s.Of(PeerOf(x)), id);
    hide Good, RanFor, Reachable;
  }

  lemma ReturnedWhatRan(e: Endpoint, p: Endpoint, id: nat)
    requires Good(e, p) && Good(p, e) && id in e.inv.calls
    requires e.inv.calls[id].pc.Returned? && e.inv.calls[id].pc.ret.FromChannel?
    ensures e.inv.calls[id].sentAt.Some?
    ensures RanFor(p.srv.reqs, e.inv.calls[id].sentAt.value, id, e.inv.calls[id], e.inv.calls[id].pc.ret)
  {
    ResultIsFromHandler(e, p, id);
    IdsAreUnique(p, e);
    CallHasKind(e, id);
    hide Good;
  }

  lemma CallHasKind(e: Endpoint, id: nat)
    requires Local(e) && id in e.inv.calls
    ensures KindFits(e.inv.opens, id, e.inv.calls[id])
  {
    assert CallFits(e.inv, id);
  }

  lemma OneResponse(e: Endpoint, p: Endpoint, i: nat, j: nat)
    requires Good(e, p) && i < |e.io.out| && j < |e.io.out|
    requires e.io.out[i].Response? && e.io.out[j].Response? && e.io.out[i].id == e.io.out[j].id
    ensures i == j
    ensures e.io.out[i].id in p.inv.calls && !p.inv.calls[e.io.out[i].id].kind.Notify?
  {
    assert AnswerFits(e.srv, e.io.out, i) && AnswerFits(e.srv, e.io.out, j);
    var k, l := e.srv.answeredBy[i], e.srv.answeredBy[j];
    assert ReqFits(e.srv, e.io.out, k) && ReqFits(e.srv, e.io.out, l);
    IdsAreUnique(e, p);
    RequestIsFromCall(p, e, k);
    assert CallFits(p.inv, e.srv.reqs[k].req.id);
  }

  /** No request is answered twice, and a notification not at all. */
  lemma AtMostOneResponse(w: World, s: Sys, x: End, i: nat, j: nat)
    requires Reachable(w, s)
    requires i < |s.Of(x).io.out| && j < |s.Of(x).io.out|
    requires s.Of(x).io.out[i].Response? && s.Of(x).io.out[j].Response?
    requires s.Of(x).io.out[i].id == s.Of(x).io.out[j].id
    ensures i == j
    ensures var id := s.Of(x).io.out[i].id;
            id in s.Of(PeerOf(x)).inv.calls && !s.Of(PeerOf(x)).inv.calls[id].kind.Notify?
  {
    GoodFrom(w, s, x);
    OneResponse(s.Of(x), s.Of(PeerOf(x)), i, j);
    hide Good;
  }

  /** In every interleaving: the channel a response is being sent on, for as long as the send
      blocks, is the open channel of a call in `invokes`; a channel about to be closed is open;
      and `invokes` holds exactly the calls between registration and deferred removal. */
  lemma ResultChannelSafety(w: World, s: Sys, x: End)
    requires Reachable(w, s)
    ensures var v := s.Of(x).inv;
            && (forall at | at in v.resps && v.resps[at].pc.Sending? ::
                  v.resps[at].id in v.invokes && v.resps[at].id in v.chans && v.chans[v.resps[at].id] == ChanOpen)
            && (forall id | CanGrant(v, id) && v.calls[id].pc.DelLock? ::
                  id in v.chans && v.chans[id] == ChanOpen && forall at | at in v.resps :: !v.resps[at].pc.Sending?)
            && (forall id :: id in v.invokes <==> id in v.calls && InWindow(v.calls[id].pc))
  {
    GoodFrom(w, s, x);
    var v := s.Of(x).inv;
    assert CallsOk(v);
    hide Good, CallsOk, Reachable, InWindow, CanGrant;
    forall at | at in v.resps && v.resps[at].pc.Sending?
      ensures v.resps[at].id in v.invokes && v.resps[at].id in v.chans && v.chans[v.resps[at].id] == ChanOpen
    {
      SendsOnOpen(v, at);
    }
    forall id | CanGrant(v, id) && v.calls[id].pc.DelLock?
      ensures id in v.chans && v.chans[id] == ChanOpen && forall at | at in v.resps :: !v.resps[at].pc.Sending?
    {
      ClosesOpen(v, id);
    }
    forall id ensures id in v.invokes <==> id in v.calls && InWindow(v.calls[id].pc) {
      InvokesIsWindow(v, id);
    }
  }

  lemma SendsOnOpen(v: Invokes, at: nat)
    requires CallsOk(v) && at in v.resps && v.resps[at].pc.Sending?
    ensures v.resps[at].id in v.invokes && v.resps[at].id in v.chans && v.chans[v.resps[at].id] == ChanOpen
  {
    assert at in v.readers;
    assert CallFits(v, v.resps[at].id);
  }

  lemma ClosesOpen(v: Invokes, id: nat)
    requires CallsOk(v) && CanGrant(v, id) && v.calls[id].pc.DelLock?
    ensures id in v.chans && v.chans[id] == ChanOpen && forall at | at in v.resps :: !v.resps[at].pc.Sending?
  {
    assert CallFits(v, id);
  }

  lemma InvokesIsWindow(v: Invokes, id: nat)
    requires CallsOk(v)
    ensures id in v.invokes <==> id in v.calls && InWindow(v.calls[id].pc)
  {
    assert id in v.calls ==> CallFits(v, id);
  }

  // ---------------------------------------------------------------- cancellation

  /** The keys of `cancels` are exactly the unary requests between registration and return,
      and no stored entry is ever marked as cancelled. */
  lemma CancelEntries(w: World, s: Sys, x: End, id: nat)
    requires Reachable(w, s)
    ensures var r := s.Of(x).srv;
            (id in r.cancels <==> exists at | at in r.reqs :: r.reqs[at].req.id == id && Cancellable(r.reqs[at]))
    ensures !MarkedCancelled(s.Of(x).srv, id)
  {
    GoodFrom(w, s, x);
    var r := s.Of(x).srv;
    if id in r.cancels { assert EntryFits(r, id); }
    forall at | at in r.reqs && r.reqs[at].req.id == id && Cancellable(r.reqs[at]) ensures id in r.cancels {
      assert HasEntry(r, at);
    }
  }

  /** The requests of `r'` are those of `r`, except that the running handler of call `id`
      now has a cancelled context. */
  ghost predicate OnlyCancels(r: Requests, r': Requests, id: nat, cause: string) {
    && r'.cancels == r.cancels && r'.reqs.Keys == r.reqs.Keys && r'.answeredBy == r.answeredBy
    && (forall at | at in r.reqs && r'.reqs[at] != r.reqs[at] ::
          r.reqs[at].req.id == id && Cancellable(r.reqs[at]) && r'.reqs[at] == r.reqs[at].(cause := Some(cause)))
    && (forall at | at in r.reqs && r.reqs[at].req.id == id && Cancellable(r.reqs[at]) :: r'.reqs[at].cause.Some?)
  }

  lemma CancelHitsOnlyIts(r: Requests, id: nat, cause: string)
    requires CancelsOk(r)
    ensures OnlyCancels(r, DoCancel(r, id, cause), id, cause)
  {
    if id in r.cancels { assert EntryFits(r, id); }
    forall at | at in r.reqs && r.reqs[at].req.id == id && Cancellable(r.reqs[at])
      ensures id in r.cancels && r.cancels[id].target == at
    {
      assert HasEntry(r, at);
    }
  }

  /** Reading a CtxCancel changes nothing but the context of the running handler of that id;
      in particular it does not mark the entry in `cancels`. */
  lemma CancelReachesOnlyItsCall(w: World, s: Sys, x: End)
    requires Reachable(w, s) && Enabled(w, s, Action(x, OfLink(Read)))
    requires s.Of(PeerOf(x)).io.out[s.Of(x).io.read].CtxCancel?
    ensures var e, e' := s.Of(x), Step(w, s, Action(x, OfLink(Read))).Of(x);
            var p := s.Of(PeerOf(x)).io.out[e.io.read];
            OnlyCancels(e.srv, e'.srv, p.id, p.cause) && e'.inv == e.inv && e'.str == e.str
  {
    GoodFrom(w, s, x);
    var p := s.Of(PeerOf(x)).io.out[s.Of(x).io.read];
    assert CancelsOk(s.Of(x).srv);
    CancelHitsOnlyIts(s.Of(x).srv, p.id, p.cause);
    hide Good, CancelsOk, OnlyCancels;
  }

  /** What a caller can know before the call: the peer serves and can decode it, and a response is
      asked for. */
  predicate Answerable(c: Config, q: RequestMsg) {
    if q.service == "" then ResolvesStream(c, q)
    else ResolvesUnary(c, q) && Decodes(c, q.input) && !q.isNotification
  }

  /** How far a request got follows from what was asked, whether its context was cancelled or not. */
  predicate Served(c: Config, ctxDone: bool, q: Req) {
    var over := q.pc.Removing? || q.pc.Finished?;
    if q.req.service == "" then
      && (q.pc.Started? || q.pc.Responding? || q.pc.Finished?) && q.outcome.None?
      && (q.pc.Started? ==> q.answeredAt.None?)
      && (q.pc.Responding? || q.answeredAt.Some? ==> ResolvesStream(c, q.req))
      && (over && ResolvesStream(c, q.req) && !ctxDone ==> q.answeredAt.Some?)
    else
      && (q.pc.Started? || q.pc.Running? ==> q.outcome.None?)
      && (q.pc.Running? ==> ResolvesUnary(c, q.req))
      && (q.pc.Ran? || q.pc.Responding? || q.answeredAt.Some? ==> q.outcome.Some?)
      && (q.outcome.Some? ==> ResolvesUnary(c, q.req) && Decodes(c, q.req.input))
      && (q.pc.Responding? || q.answeredAt.Some? ==> !q.req.isNotification)
      && (over && ResolvesUnary(c, q.req) && Decodes(c, q.req.input) ==> q.outcome.Some?)
      && (over && q.outcome.Some? && !q.req.isNotification && !ctxDone ==> q.answeredAt.Some?)
  }

  ghost predicate AllServed(c: Config, e: Endpoint) {
    forall at | at in e.srv.reqs :: Served(c, e.io.ctxDone, e.srv.reqs[at])
  }

  lemma RequestStepServes(c: Config, r: Requests, ctxDone: bool, pos: nat, op: RequestOp, at: nat)
    requires RequestGuard(c, r, ctxDone, op) && at in r.reqs && Served(c, ctxDone, r.reqs[at])
    requires r.reqs[op.at].pc.Ran? ==> !MarkedCancelled(r, r.reqs[op.at].req.id)
    requires Served(c, ctxDone, r.reqs[op.at])
    ensures at in RequestEffect(c, r, ctxDone, pos, op).reqs
    ensures Served(c, ctxDone, RequestEffect(c, r, ctxDone, pos, op).reqs[at])
  {
    hide ResolvesStream, ResolvesUnary, Decodes;
  }

  lemma Unmarked(e: Endpoint, id: nat)
    requires Local(e)
    ensures !MarkedCancelled(e.srv, id)
  {
    if id in e.srv.cancels { assert EntryFits(e.srv, id); }
  }

  lemma ActsOnRequest(c: Config, r: Requests, ctxDone: bool, op: RequestOp)
    requires RequestGuard(c, r, ctxDone, op)
    ensures op.at in r.reqs
  {
  }

  lemma RequestServes(c: Config, e: Endpoint, op: RequestOp)
    requires Local(e) && AllServed(c, e) && RequestGuard(c, e.srv, e.io.ctxDone, op)
    ensures forall at | at in RequestEffect(c, e.srv, e.io.ctxDone, |e.io.out|, op).reqs ::
              Served(c, e.io.ctxDone, RequestEffect(c, e.srv, e.io.ctxDone, |e.io.out|, op).reqs[at])
  {
    hide Local, Served, RequestEffect, RequestGuard;
    var r := RequestEffect(c, e.srv, e.io.ctxDone, |e.io.out|, op);
    RequestKeys(c, e.srv, e.io.ctxDone, |e.io.out|, op);
    ActsOnRequest(c, e.srv, e.io.ctxDone, op);
    Unmarked(e, e.srv.reqs[op.at].req.id);
    forall at | at in r.reqs ensures Served(c, e.io.ctxDone, r.reqs[at]) {
      RequestStepServes(c, e.srv, e.io.ctxDone, |e.io.out|, op, at);
    }
  }

  lemma LinkServes(c: Config, cap: nat, e: Endpoint, peer: Io, op: LinkOp)
    requires AllServed(c, e) && LinkGuard(cap, e.io, peer, op)
    ensures AllServed(c, LinkEffect(cap, e, peer, op))
  {
    hide Dispatch, ResolvesStream, ResolvesUnary, Decodes;
    var e' := LinkEffect(cap, e, peer, op);
    forall at | at in e'.srv.reqs ensures Served(c, e'.io.ctxDone, e'.srv.reqs[at]) {
      assert at in e.srv.reqs ==> Served(c, e.io.ctxDone, e.srv.reqs[at]);
    }
  }

  lemma StepServes(c: Config, cap: nat, e: Endpoint, p: Endpoint, op: Op)
    requires Good(e, p) && AllServed(c, e) && Guard(c, cap, e, p.io, op)
    ensures AllServed(c, Effect(c, cap, e, p.io, op))
  {
    hide Local, Shared, Served, RequestEffect, RequestGuard, LinkEffect, LinkGuard;
    match op
    case OfRequest(o) => RequestServes(c, e, o);
    case OfLink(o) => LinkServes(c, cap, e, p.io, o);
    case _ =>
  }

  lemma {:induction false} RunServes(w: World, s: Sys, acts: seq<Action>)
    requires Inv(s) && Good(s.b, s.a) && AllServed(w.a, s.a) && AllServed(w.b, s.b) && Run(w, s, acts).Some?
    ensures AllServed(w.a, Run(w, s, acts).value.a) && AllServed(w.b, Run(w, s, acts).value.b)
    decreases |acts|
  {
    hide Local, Shared, AllServed, Effect, Guard;
    if acts != [] {
      var act := acts[0];
      StepKeepsInv(w, s, act);
      StepServes(w.Of(act.x), w.cap, s.Of(act.x), s.Of(PeerOf(act.x)), act.op);
      RunServes(w, Step(w, s, act), acts[1..]);
    }
  }

  lemma ReachableServes(w: World, s: Sys, x: End)
    requires Reachable(w, s)
    ensures AllServed(w.Of(x), s.Of(x))
  {
    var acts: seq<Action> :| Run(w, INIT, acts) == Some(s);
    InitHolds();
    RunServes(w, INIT, acts);
  }

  /** While serve's context is alive, a finished request has been answered if and only if it was
      answerable, whether or not a cancel packet reached its handler; and the answer to a call is
      what its handler returned. */
  lemma CancelledCallIsAnswered(w: World, s: Sys, x: End, at: nat)
    requires Reachable(w, s) && !s.Of(x).io.ctxDone
    requires at in s.Of(x).srv.reqs && s.Of(x).srv.reqs[at].pc.Finished?
    ensures var q := s.Of(x).srv.reqs[at];
            && (q.answeredAt.Some? <==> Answerable(w.Of(x), q.req))
            && (q.req.service != "" && Answerable(w.Of(x), q.req) ==>
                  && q.outcome.Some? && q.answeredAt.Some? && q.answeredAt.value < |s.Of(x).io.out|
                  && var p := s.Of(x).io.out[q.answeredAt.value];
                     p.Response? && p.id == q.req.id && Conveys(p.out, p.error, q.outcome.value))
  {
    GoodFrom(w, s, x);
    ReachableServes(w, s, x);
    assert Served(w.Of(x), false, s.Of(x).srv.reqs[at]);
    if s.Of(x).srv.reqs[at].req.service != "" { AnswerConveys(s.Of(x), at); }
    hide Good, AllServed, Reachable, ResolvesStream, ResolvesUnary, Decodes;
  }

  lemma AnswerConveys(e: Endpoint, at: nat)
    requires Local(e) && at in e.srv.reqs && e.srv.reqs[at].req.service != ""
    ensures var q := e.srv.reqs[at];
            q.answeredAt.Some? ==>
              && q.outcome.Some? && q.answeredAt.value < |e.io.out|
              && var p := e.io.out[q.answeredAt.value];
                 p.Response? && p.id == q.req.id && Conveys(p.out, p.error, q.outcome.value)
  {
    assert ReqFits(e.srv, e.io.out, at);
  }
}
