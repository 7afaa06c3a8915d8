/** From hand to hand: what a caller passes in is what the peer's handler gets, and what the handler
    returns is what the caller gets back; which requests run a handler; and why calls end without a
    result (xrpc/conn.go:334-471, 561-706). Everything is stated about the step in which it was
    passed, and holds in every continuation of it. */
module EndToEnd {
  import opened Packets
  import opened Streams
  import opened Protocol
  import opened CallInvariants
  import opened WireInvariants
  import opened StreamInvariants
  import opened StreamOrder
  import opened Invariants
  import opened CallGuarantees
  import opened Continuations
  import opened Cancellation
  import opened Deadlock

  lemma Reached(w: World, s: Sys, act: Action, acts: seq<Action>)
    requires Reachable(w, s) && Enabled(w, s, act) && Run(w, Step(w, s, act), acts).Some?
    ensures Reachable(w, Step(w, s, act)) && Fine(Step(w, s, act)) && Fine(Run(w, Step(w, s, act), acts).value)
  {
    var before: seq<Action> :| Run(w, INIT, before) == Some(s);
    RunAppend(w, INIT, before, act);
    assert Reachable(w, Step(w, s, act));
    hide Run, Step, Enabled, Fine, Reachable;
    ReachableFine(w, Step(w, s, act));
    RunKeepsFine(w, Step(w, s, act), acts);
  }

  // ---------------------------------------------------------------- what a call was given

  predicate Carries(v: Invokes, id: nat, q: RequestMsg) {
    id in v.calls && RequestOf(id, v.calls[id]) == q
  }

  /** NewStream still has what it was given, or has passed it on to its call. */
  predicate OpenCarries(v: Invokes, sid: nat, service: string, methodName: string) {
    sid in v.opens &&
    match v.opens[sid]
    case NeedInvoke(s, m) => s == service && m == methodName
    case InvokedAs(rid) =>
      Carries(v, rid, RequestMsg(rid, "", "StreamRequest", OpenStream(sid, service, methodName), false))
  }

  lemma CallStepCarries(v: Invokes, ctxDone: bool, pos: nat, op: CallOp, id: nat, q: RequestMsg)
    requires CallGuard(v, ctxDone, op) && Carries(v, id, q) && v.lastId + 1 !in v.calls
    ensures Carries(CallEffect(v, ctxDone, pos, op), id, q)
  {
  }

  lemma CallStepOpenCarries(v: Invokes, ctxDone: bool, pos: nat, op: CallOp, sid: nat, service: string,
                            methodName: string)
    requires CallGuard(v, ctxDone, op) && OpenCarries(v, sid, service, methodName)
    requires v.lastId + 1 !in v.calls && v.lastId + 1 !in v.opens
    ensures OpenCarries(CallEffect(v, ctxDone, pos, op), sid, service, methodName)
  {
    hide Carries, CallEffect, CallGuard;
    OpensAfter(v, ctxDone, pos, op, sid);
    if v.opens[sid].InvokedAs? {
      var rid := v.opens[sid].rid;
      CallStepCarries(v, ctxDone, pos, op, rid,
                      RequestMsg(rid, "", "StreamRequest", OpenStream(sid, service, methodName), false));
    } else if op == OpenInvoke(sid) {
      OpenPassesOn(v, ctxDone, pos, sid);
    }
  }

  lemma OpensAfter(v: Invokes, ctxDone: bool, pos: nat, op: CallOp, sid: nat)
    requires CallGuard(v, ctxDone, op) && sid in v.opens && v.lastId + 1 !in v.opens
    ensures var w := CallEffect(v, ctxDone, pos, op);
            && sid in w.opens
            && (op != OpenInvoke(sid) || v.opens[sid].InvokedAs? ==> w.opens[sid] == v.opens[sid])
  {
  }

  /** The request NewStream makes, with the parameters it was given. */
  lemma OpenPassesOn(v: Invokes, ctxDone: bool, pos: nat, sid: nat)
    requires CallGuard(v, ctxDone, OpenInvoke(sid))
    ensures var w := CallEffect(v, ctxDone, pos, OpenInvoke(sid)); var o := v.opens[sid]; var rid := v.lastId + 1;
            && sid in w.opens && w.opens[sid] == InvokedAs(rid)
            && Carries(w, rid, RequestMsg(rid, "", "StreamRequest", OpenStream(sid, o.service, o.methodName), false))
  {
  }

  lemma NextUnused(e: Endpoint)
    requires Local(e)
    ensures e.inv.lastId + 1 !in e.inv.calls && e.inv.lastId + 1 !in e.inv.opens
  {
    assert CallsOk(e.inv);
    forall id | id in e.inv.calls ensures id <= e.inv.lastId { assert CallFits(e.inv, id); }
  }

  lemma OtherStepsKeepCalls(c: Config, cap: nat, e: Endpoint, peer: Io, op: Op)
    requires Guard(c, cap, e, peer, op)
    ensures op.OfCall? ==> CallGuard(e.inv, e.io.ctxDone, op.call)
    ensures var v := Effect(c, cap, e, peer, op).inv;
            if op.OfCall? then v == CallEffect(e.inv, e.io.ctxDone, |e.io.out|, op.call)
            else v.calls == e.inv.calls && v.opens == e.inv.opens
  {
    hide StreamEffect, RequestEffect, CallEffect, CallGuard, RequestOnTable, Dispatch, DoCancel, DoCleanup;
  }

  lemma SameCallsCarry(v: Invokes, v': Invokes, id: nat, q: RequestMsg)
    requires Carries(v, id, q) && v'.calls == v.calls
    ensures Carries(v', id, q)
  {
  }

  lemma {:induction false} RunCarries(w: World, s: Sys, acts: seq<Action>, x: End, id: nat, q: RequestMsg)
    requires Fine(s) && Run(w, s, acts).Some? && Carries(s.Of(x).inv, id, q)
    ensures Carries(Run(w, s, acts).value.Of(x).inv, id, q)
    decreases |acts|
  {
    hide Fine, Good, AllFollow, Guard, Effect, Carries, CallEffect, CallGuard;
    if acts != [] {
      var act := acts[0];
      StepKeepsFine(w, s, act);
      FineAt(s, act.x);
      if act.x == x {
        var e := s.Of(x);
        OtherStepsKeepCalls(w.Of(x), w.cap, e, s.Of(PeerOf(x)).io, act.op);
        LocalAt(e, s.Of(PeerOf(x)));
        NextUnused(e);
        if act.op.OfCall? { CallStepCarries(e.inv, e.io.ctxDone, |e.io.out|, act.op.call, id, q); }
        else { SameCallsCarry(e.inv, Step(w, s, act).Of(x).inv, id, q); }
      }
      RunCarries(w, Step(w, s, act), acts[1..], x, id, q);
    }
  }

  lemma LocalAt(e: Endpoint, p: Endpoint)
    requires Good(e, p)
    ensures Local(e) && Local(p)
  {
    hide Local, Shared;
  }

  lemma SameOpensCarry(v: Invokes, v': Invokes, sid: nat, service: string, methodName: string)
    requires OpenCarries(v, sid, service, methodName) && v'.calls == v.calls && v'.opens == v.opens
    ensures OpenCarries(v', sid, service, methodName)
  {
  }

  lemma {:induction false} RunOpenCarries(w: World, s: Sys, acts: seq<Action>, x: End, sid: nat, service: string,
                                          methodName: string)
    requires Fine(s) && Run(w, s, acts).Some? && OpenCarries(s.Of(x).inv, sid, service, methodName)
    ensures OpenCarries(Run(w, s, acts).value.Of(x).inv, sid, service, methodName)
    decreases |acts|
  {
    hide Fine, Good, AllFollow, Guard, Effect, OpenCarries, CallEffect, CallGuard;
    if acts != [] {
      var act := acts[0];
      StepKeepsFine(w, s, act);
      FineAt(s, act.x);
      if act.x == x {
        var e := s.Of(x);
        OtherStepsKeepCalls(w.Of(x), w.cap, e, s.Of(PeerOf(x)).io, act.op);
        LocalAt(e, s.Of(PeerOf(x)));
        NextUnused(e);
        if act.op.OfCall? {
          CallStepOpenCarries(e.inv, e.io.ctxDone, |e.io.out|, act.op.call, sid, service, methodName);
        } else {
          SameOpensCarry(e.inv, Step(w, s, act).Of(x).inv, sid, service, methodName);
        }
      }
      RunOpenCarries(w, Step(w, s, act), acts[1..], x, sid, service, methodName);
    }
  }

  /** Whatever request with this id the peer has is the one the call carries. */
  lemma PeerGetsIt(e: Endpoint, p: Endpoint, id: nat, q: RequestMsg)
    requires Good(e, p) && Carries(e.inv, id, q)
    ensures forall at | at in p.srv.reqs && p.srv.reqs[at].req.id == id :: p.srv.reqs[at].req == q
  {
    hide Local, Shared;
    forall at | at in p.srv.reqs && p.srv.reqs[at].req.id == id ensures p.srv.reqs[at].req == q {
      RequestIsFromCall(e, p, at);
    }
  }

  function Starting(x: End, service: string, methodName: string, any: Any, notify: bool): Action {
    Action(x, OfCall(StartCall(service, methodName, any, notify)))
  }

  lemma StartCarries(w: World, s: Sys, x: End, service: string, methodName: string, any: Any, notify: bool)
    requires Enabled(w, s, Starting(x, service, methodName, any, notify))
    ensures var v, id := Step(w, s, Starting(x, service, methodName, any, notify)).Of(x).inv, s.Of(x).inv.lastId + 1;
            && v.lastId == id && Carries(v, id, RequestMsg(id, service, methodName, Message(any), notify))
            && v.calls[id].kind == if notify then Notify else Unary
  {
  }

  /** Invoke and Notify: the request with the next id is the one the user asked for. Its service, its
      method, its message and whether it is a notification are, in every continuation, what was
      passed in, at the call and in every request with that id the peer has. */
  lemma CallIsAsPassed(w: World, s: Sys, x: End, service: string, methodName: string, any: Any, notify: bool,
                       acts: seq<Action>)
    requires Reachable(w, s) && Enabled(w, s, Starting(x, service, methodName, any, notify))
    requires Run(w, Step(w, s, Starting(x, service, methodName, any, notify)), acts).Some?
    ensures var t := Run(w, Step(w, s, Starting(x, service, methodName, any, notify)), acts).value;
            var id := s.Of(x).inv.lastId + 1;
            && id in t.Of(x).inv.calls
            && t.Of(x).inv.calls[id].service == service && t.Of(x).inv.calls[id].methodName == methodName
            && t.Of(x).inv.calls[id].input == Message(any) && (t.Of(x).inv.calls[id].kind.Notify? <==> notify)
            && forall at | at in t.Of(PeerOf(x)).srv.reqs && t.Of(PeerOf(x)).srv.reqs[at].req.id == id ::
                 t.Of(PeerOf(x)).srv.reqs[at].req == RequestMsg(id, service, methodName, Message(any), notify)
  {
    var act, id := Starting(x, service, methodName, any, notify), s.Of(x).inv.lastId + 1;
    var q := RequestMsg(id, service, methodName, Message(any), notify);
    StartCarries(w, s, x, service, methodName, any, notify);
    hide Run, Step, Enabled, Fine, Good, AllFollow, Reachable, Starting;
    Reached(w, s, act, acts);
    RunCarries(w, Step(w, s, act), acts, x, id, q);
    var t := Run(w, Step(w, s, act), acts).value;
    FineAt(t, x);
    PeerGetsIt(t.Of(x), t.Of(PeerOf(x)), id, q);
  }

  /** `reqs[run]` is the one handler run for the request `q`, and it produced what the call returned. */
  ghost predicate RanOnly(reqs: map<nat, Req>, run: nat, q: RequestMsg, ret: Ret)
    requires ret.FromChannel?
  {
    && run in reqs && reqs[run].req == q && (forall other | other in reqs && reqs[other].req.id == q.id :: other == run)
    && reqs[run].outcome.Some? && Conveys(ret.out, ret.error, reqs[run].outcome.value)
  }

  /** An Invoke that returns through its channel returns what the one handler run for it produced: a run
      of the service and method that were passed in, on the message that was passed in. */
  lemma InvokeIsAnswered(w: World, s: Sys, x: End, service: string, methodName: string, any: Any, acts: seq<Action>)
    requires Reachable(w, s) && Enabled(w, s, Starting(x, service, methodName, any, false))
    requires Run(w, Step(w, s, Starting(x, service, methodName, any, false)), acts).Some?
    ensures var t := Run(w, Step(w, s, Starting(x, service, methodName, any, false)), acts).value;
            var id := s.Of(x).inv.lastId + 1;
            id in t.Of(x).inv.calls &&
            (t.Of(x).inv.calls[id].pc.Returned? && t.Of(x).inv.calls[id].pc.ret.FromChannel? ==>
               exists run ::
                 RanOnly(t.Of(PeerOf(x)).srv.reqs, run, RequestMsg(id, service, methodName, Message(any), false),
                                     t.Of(x).inv.calls[id].pc.ret))
  {
    var act, id := Starting(x, service, methodName, any, false), s.Of(x).inv.lastId + 1;
    CallIsAsPassed(w, s, x, service, methodName, any, false, acts);
    hide Run, Step, Enabled, Fine, Good, AllFollow, Reachable, Starting;
    Reached(w, s, act, acts);
    var t := Run(w, Step(w, s, act), acts).value;
    FineAt(t, x);
    FineAt(t, PeerOf(x));
    var c := t.Of(x).inv.calls[id];
    if c.pc.Returned? && c.pc.ret.FromChannel? {
      ReturnedWhatRan(t.Of(x), t.Of(PeerOf(x)), id);
      LocalAt(t.Of(x), t.Of(PeerOf(x)));
      CallHasKind(t.Of(x), id);
      MessageRan(t.Of(PeerOf(x)).srv.reqs, c.sentAt.value, id, c, c.pc.ret);
      var run := c.sentAt.value;
      assert RanOnly(t.Of(PeerOf(x)).srv.reqs, run, RequestMsg(id, service, methodName, Message(any), false), c.pc.ret);
    }
  }

  lemma MessageRan(reqs: map<nat, Req>, run: nat, id: nat, c: Call, ret: Ret)
    requires ret.FromChannel? && RanFor(reqs, run, id, c, ret) && c.input.Message?
    requires c.kind.Opens? ==> c.input.OpenStream?
    ensures run in reqs && reqs[run].req.id == id && reqs[run].outcome.Some?
    ensures Conveys(ret.out, ret.error, reqs[run].outcome.value)
    ensures forall other | other in reqs && reqs[other].req.id == id :: other == run
  {
  }

  /** NewStream: the request it makes asks for the service and method that were passed in, under the
      number the stream has. */
  lemma OpenIsAsPassed(w: World, s: Sys, x: End, service: string, methodName: string, acts: seq<Action>)
    requires Reachable(w, s) && Enabled(w, s, Action(x, OfCall(StartOpen(service, methodName))))
    requires Run(w, Step(w, s, Action(x, OfCall(StartOpen(service, methodName)))), acts).Some?
    ensures var t := Run(w, Step(w, s, Action(x, OfCall(StartOpen(service, methodName)))), acts).value;
            var sid := s.Of(x).inv.lastId + 1;
            && sid in t.Of(x).inv.opens
            && match t.Of(x).inv.opens[sid]
               case NeedInvoke(asked, named) => asked == service && named == methodName
               case InvokedAs(rid) =>
                 forall at | at in t.Of(PeerOf(x)).srv.reqs && t.Of(PeerOf(x)).srv.reqs[at].req.id == rid ::
                   t.Of(PeerOf(x)).srv.reqs[at].req ==
                   RequestMsg(rid, "", "StreamRequest", OpenStream(sid, service, methodName), false)
  {
    var act, sid := Action(x, OfCall(StartOpen(service, methodName))), s.Of(x).inv.lastId + 1;
    StartOpenCarries(w, s, x, service, methodName);
    hide Run, Step, Enabled, Fine, Good, AllFollow, Reachable;
    Reached(w, s, act, acts);
    RunOpenCarries(w, Step(w, s, act), acts, x, sid, service, methodName);
    var t := Run(w, Step(w, s, act), acts).value;
    FineAt(t, x);
    if t.Of(x).inv.opens[sid].InvokedAs? {
      var rid := t.Of(x).inv.opens[sid].rid;
      PeerGetsIt(t.Of(x), t.Of(PeerOf(x)), rid,
                 RequestMsg(rid, "", "StreamRequest", OpenStream(sid, service, methodName), false));
    }
  }

  lemma StartOpenCarries(w: World, s: Sys, x: End, service: string, methodName: string)
    requires Enabled(w, s, Action(x, OfCall(StartOpen(service, methodName))))
    ensures var v := Step(w, s, Action(x, OfCall(StartOpen(service, methodName)))).Of(x).inv;
            OpenCarries(v, s.Of(x).inv.lastId + 1, service, methodName)
  {
  }

  // ---------------------------------------------------------------- what a handler returned

  /** The handler of request `at` has returned `o`. */
  predicate HasReturned(r: Requests, at: nat, o: Outcome) {
    at in r.reqs && r.reqs[at].outcome == Some(o) && !r.reqs[at].pc.Started? && !r.reqs[at].pc.Running?
  }

  lemma RequestStepReturned(c: Config, r: Requests, ctxDone: bool, pos: nat, op: RequestOp, at: nat, o: Outcome)
    requires RequestGuard(c, r, ctxDone, op) && HasReturned(r, at, o)
    ensures HasReturned(RequestEffect(c, r, ctxDone, pos, op), at, o)
  {
  }

  lemma ReadKeepsReturned(e: Endpoint, p: Packet, at: nat, o: Outcome)
    requires e.io.read !in e.srv.reqs && HasReturned(e.srv, at, o)
    ensures HasReturned(DoRead(e, p).srv, at, o)
  {
    hide Dispatch;
  }

  lemma StepReturned(c: Config, cap: nat, e: Endpoint, p: Endpoint, op: Op, at: nat, o: Outcome)
    requires Good(e, p) && Guard(c, cap, e, p.io, op) && HasReturned(e.srv, at, o)
    ensures HasReturned(Effect(c, cap, e, p.io, op).srv, at, o)
  {
    hide Local, Shared, HasReturned, RequestEffect, RequestGuard, StreamEffect;
    hide CallEffect, RequestOnTable, DoRead, DoCleanup;
    match op
    case OfRequest(q) => RequestStepReturned(c, e.srv, e.io.ctxDone, |e.io.out|, q, at, o);
    case OfLink(l) =>
      if l.Read? {
        ReadKeepsSpawns(e, p.io);
        ReadKeepsReturned(e, p.io.out[e.io.read], at, o);
      }
    case _ =>
  }

  lemma {:induction false} RunReturned(w: World, s: Sys, acts: seq<Action>, x: End, at: nat, o: Outcome)
    requires Fine(s) && Run(w, s, acts).Some? && HasReturned(s.Of(x).srv, at, o)
    ensures HasReturned(Run(w, s, acts).value.Of(x).srv, at, o)
    decreases |acts|
  {
    hide Fine, Good, AllFollow, Guard, Effect, HasReturned;
    if acts != [] {
      var act := acts[0];
      StepKeepsFine(w, s, act);
      FineAt(s, act.x);
      if act.x == x { StepReturned(w.Of(x), w.cap, s.Of(x), s.Of(PeerOf(x)), act.op, at, o); }
      RunReturned(w, Step(w, s, act), acts[1..], x, at, o);
    }
  }

  function Returning(x: End, at: nat, o: Outcome): Action {
    Action(x, OfRequest(HandlerReturns(at, o)))
  }

  lemma ReturnIsKept(w: World, s: Sys, x: End, at: nat, o: Outcome)
    requires Enabled(w, s, Returning(x, at, o))
    ensures HasReturned(Step(w, s, Returning(x, at, o)).Of(x).srv, at, o)
    ensures at in s.Of(x).srv.reqs && Step(w, s, Returning(x, at, o)).Of(x).srv.reqs[at].req == s.Of(x).srv.reqs[at].req
  {
  }

  /** What the call with the id of request `at` took from its channel is what request `at` produced. */
  lemma CallTookIt(c: Config, e: Endpoint, p: Endpoint, at: nat, o: Outcome)
    requires Good(e, p) && Good(p, e) && AllServed(c, p) && HasReturned(p.srv, at, o)
    ensures p.srv.reqs[at].req.id in e.inv.calls
    ensures var ret := RetOf(e.inv.calls[p.srv.reqs[at].req.id].pc);
            ret.Some? && ret.value.FromChannel? ==> Conveys(ret.value.out, ret.value.error, o)
  {
    var id := p.srv.reqs[at].req.id;
    assert Served(c, p.io.ctxDone, p.srv.reqs[at]);
    RequestIsFromCall(e, p, at);
    hide Local, Shared;
    var ret := RetOf(e.inv.calls[id].pc);
    if ret.Some? && ret.value.FromChannel? { ResultIsFromHandler(e, p, id); }
  }

  /** The answer to request `at` says what its handler returned. */
  lemma AnswerIsIt(c: Config, e: Endpoint, at: nat, o: Outcome)
    requires Local(e) && AllServed(c, e) && HasReturned(e.srv, at, o)
    ensures e.srv.reqs[at].answeredAt.Some? ==>
              && e.srv.reqs[at].answeredAt.value < |e.io.out|
              && var q := e.io.out[e.srv.reqs[at].answeredAt.value];
                 q.Response? && q.id == e.srv.reqs[at].req.id && Conveys(q.out, q.error, o)
  {
    assert Served(c, e.io.ctxDone, e.srv.reqs[at]);
    AnswerConveys(e, at);
    hide Local;
  }

  /** What a handler returns is, in every continuation, what its request's one response says, and what
      the caller gets that takes the response: the message and no error text, or the text of the
      error and no message. */
  lemma OutcomeReachesCaller(w: World, s: Sys, x: End, at: nat, o: Outcome, acts: seq<Action>)
    requires Reachable(w, s) && Enabled(w, s, Returning(x, at, o))
    requires Run(w, Step(w, s, Returning(x, at, o)), acts).Some?
    ensures var t := Run(w, Step(w, s, Returning(x, at, o)), acts).value;
            && at in s.Of(x).srv.reqs && at in t.Of(x).srv.reqs && t.Of(x).srv.reqs[at].outcome == Some(o)
            && (t.Of(x).srv.reqs[at].answeredAt.Some? ==>
                  && t.Of(x).srv.reqs[at].answeredAt.value < |t.Of(x).io.out|
                  && var q := t.Of(x).io.out[t.Of(x).srv.reqs[at].answeredAt.value];
                     q.Response? && q.id == t.Of(x).srv.reqs[at].req.id && Conveys(q.out, q.error, o))
            && var id := t.Of(x).srv.reqs[at].req.id;
               id in t.Of(PeerOf(x)).inv.calls &&
               var ret := RetOf(t.Of(PeerOf(x)).inv.calls[id].pc);
               (ret.Some? && ret.value.FromChannel? ==> Conveys(ret.value.out, ret.value.error, o))
  {
    var act := Returning(x, at, o);
    ReturnIsKept(w, s, x, at, o);
    hide Run, Step, Enabled, Fine, Good, AllFollow, Reachable, Returning, AllServed, Conveys;
    Reached(w, s, act, acts);
    RunReturned(w, Step(w, s, act), acts, x, at, o);
    var t := Run(w, Step(w, s, act), acts).value;
    ReachedServes(w, s, act, acts, x);
    FineAt(t, x);
    FineAt(t, PeerOf(x));
    LocalAt(t.Of(x), t.Of(PeerOf(x)));
    AnswerIsIt(w.Of(x), t.Of(x), at, o);
    CallTookIt(w.Of(x), t.Of(PeerOf(x)), t.Of(x), at, o);
  }

  lemma {:induction false} RunConcat(w: World, s: Sys, before: seq<Action>, acts: seq<Action>)
    requires Run(w, s, before).Some?
    ensures Run(w, s, before + acts) == Run(w, Run(w, s, before).value, acts)
    decreases |before|
  {
    hide Guard, Effect;
    if before == [] {
      assert before + acts == acts;
    } else {
      assert (before + acts)[1..] == before[1..] + acts;
      RunConcat(w, Step(w, s, before[0]), before[1..], acts);
    }
  }

  lemma ReachedServes(w: World, s: Sys, act: Action, acts: seq<Action>, x: End)
    requires Reachable(w, s) && Enabled(w, s, act) && Run(w, Step(w, s, act), acts).Some?
    ensures Reachable(w, Run(w, Step(w, s, act), acts).value)
    ensures AllServed(w.Of(x), Run(w, Step(w, s, act), acts).value.Of(x))
  {
    var before: seq<Action> :| Run(w, INIT, before) == Some(s);
    RunAppend(w, INIT, before, act);
    RunConcat(w, INIT, before + [act], acts);
    var t := Run(w, Step(w, s, act), acts).value;
    assert Run(w, INIT, before + [act] + acts) == Some(t);
    hide Run, Step, Enabled, AllServed;
    ReachableServes(w, t, x);
  }

  // ---------------------------------------------------------------- the cancel packet

  lemma SendsCancel(w: World, s: Sys, x: End, id: nat, cause: string)
    requires Enabled(w, s, Action(x, OfCall(SendCancel(id, cause))))
    ensures Step(w, s, Action(x, OfCall(SendCancel(id, cause)))).Of(x).io.out == s.Of(x).io.out + [CtxCancel(id, cause)]
  {
  }

  /** The cause of a cancelled handler's context is that of the one cancel packet of its call. */
  lemma CauseIsThePackets(e: Endpoint, p: Endpoint, n: nat, id: nat, cause: string, at: nat)
    requires e.io.read <= |p.io.out| && CausesFit(e, p) && n < |p.io.out| && p.io.out[n] == CtxCancel(id, cause)
    requires at in e.srv.reqs && e.srv.reqs[at].req.id == id && e.srv.reqs[at].cause.Some?
    ensures e.srv.reqs[at].cause == Some(cause)
  {
    var taken := p.io.out[..e.io.read];
    assert CauseFits(taken, e.srv.reqs[at]);
    var i :| 0 <= i < |taken| && taken[i] == CtxCancel(id, e.srv.reqs[at].cause.value);
    assert p.io.out[i] == taken[i];
    OnlyOne(p.io.out, i, n, id);
  }

  lemma OnlyOne(out: seq<Packet>, i: nat, j: nat, id: nat)
    requires OneCancel(out) && i < |out| && j < |out| && CancelsCall(out[i], id) && CancelsCall(out[j], id)
    ensures i == j
  {
  }

  /** The call whose context ended hands over a cancel packet with its own id and the cause it was given;
      in every continuation the context of its handler is alive or was cancelled with that cause. */
  lemma CancelIsAsPassed(w: World, s: Sys, x: End, id: nat, cause: string, acts: seq<Action>)
    requires Reachable(w, s) && Enabled(w, s, Action(x, OfCall(SendCancel(id, cause))))
    requires Run(w, Step(w, s, Action(x, OfCall(SendCancel(id, cause)))), acts).Some?
    ensures Step(w, s, Action(x, OfCall(SendCancel(id, cause)))).Of(x).io.out == s.Of(x).io.out + [CtxCancel(id, cause)]
    ensures var t := Run(w, Step(w, s, Action(x, OfCall(SendCancel(id, cause)))), acts).value;
            forall at | at in t.Of(PeerOf(x)).srv.reqs && t.Of(PeerOf(x)).srv.reqs[at].req.id == id ::
              t.Of(PeerOf(x)).srv.reqs[at].cause in {None, Some(cause)}
  {
    var act := Action(x, OfCall(SendCancel(id, cause)));
    SendsCancel(w, s, x, id, cause);
    hide Run, Step, Enabled, Reachable, Caused, CausesFit, AllServed;
    ReachedServes(w, s, act, acts, x);
    RunGrows(w, Step(w, s, act), acts, x);
    var t := Run(w, Step(w, s, act), acts).value;
    ReachableCauses(w, t);
    CausesAt(t, PeerOf(x));
    assert t.Of(x).io.out[|s.Of(x).io.out|] == CtxCancel(id, cause);
    forall at | at in t.Of(PeerOf(x)).srv.reqs && t.Of(PeerOf(x)).srv.reqs[at].req.id == id
      ensures t.Of(PeerOf(x)).srv.reqs[at].cause in {None, Some(cause)}
    {
      if t.Of(PeerOf(x)).srv.reqs[at].cause.Some? {
        CauseIsThePackets(t.Of(PeerOf(x)), t.Of(x), |s.Of(x).io.out|, id, cause, at);
      }
    }
  }

  // ---------------------------------------------------------------- why calls end

  /** A notification ends as sent exactly when its request was handed over, else serve's context has
      ended; an Invoke that gave up has handed over its cancel packet, or serve's context has ended. */
  ghost predicate EndFits(out: seq<Packet>, ctxDone: bool, id: nat, c: Call) {
    if c.kind.Notify? then
      && (c.pc.Fresh? ==> c.sentAt.None?)
      && (c.pc.Returned? ==> (if c.sentAt.Some? then c.pc.ret == Sent else c.pc.ret == Abandoned && ctxDone))
    else RetOf(c.pc) == Some(Abandoned) ==> ctxDone || CancelTaken(out, id)
  }

  ghost predicate AllEndsFit(e: Endpoint) {
    forall id | id in e.inv.calls :: EndFits(e.io.out, e.io.ctxDone, id, e.inv.calls[id])
  }

  lemma EndFitsLater(out: seq<Packet>, ctxDone: bool, out': seq<Packet>, ctxDone': bool, id: nat, c: Call)
    requires EndFits(out, ctxDone, id, c) && out <= out' && (ctxDone ==> ctxDone')
    ensures EndFits(out', ctxDone', id, c)
  {
    hide CancelTaken;
    if CancelTaken(out, id) { TakenGrows(out, out', id); }
  }

  lemma SentCancelIsTaken(out: seq<Packet>, id: nat, cause: string)
    ensures CancelTaken(out + [CtxCancel(id, cause)], id)
  {
    assert CancelsCall((out + [CtxCancel(id, cause)])[|out|], id);
  }

  lemma CallStepEnds(v: Invokes, ctxDone: bool, out: seq<Packet>, op: CallOp, id: nat)
    requires CallGuard(v, ctxDone, op) && id in CallEffect(v, ctxDone, |out|, op).calls
    requires id in v.calls ==>
               EndFits(out + CallEmits(v, op), ctxDone, id, v.calls[id]) && KindFits(v.opens, id, v.calls[id])
    requires op.SendCancel? ==> CancelTaken(out + CallEmits(v, op), op.id)
    ensures EndFits(out + CallEmits(v, op), ctxDone, id, CallEffect(v, ctxDone, |out|, op).calls[id])
  {
    if op.ServeEnds? || op.SendRequest? || op.SendCancel? { LeavingStepEnds(v, ctxDone, out, op, id); }
    else { OtherStepEnds(v, ctxDone, out, op, id); }
    hide EndFits, CallEffect, CallGuard, CallEmits, CancelTaken;
  }

  lemma LeavingStepEnds(v: Invokes, ctxDone: bool, out: seq<Packet>, op: CallOp, id: nat)
    requires CallGuard(v, ctxDone, op) && id in CallEffect(v, ctxDone, |out|, op).calls
    requires id in v.calls ==>
               EndFits(out + CallEmits(v, op), ctxDone, id, v.calls[id]) && KindFits(v.opens, id, v.calls[id])
    requires op.SendCancel? ==> CancelTaken(out + CallEmits(v, op), op.id)
    requires op.ServeEnds? || op.SendRequest? || op.SendCancel?
    ensures EndFits(out + CallEmits(v, op), ctxDone, id, CallEffect(v, ctxDone, |out|, op).calls[id])
  {
    hide CancelTaken, CallEmits;
  }

  lemma OtherStepEnds(v: Invokes, ctxDone: bool, out: seq<Packet>, op: CallOp, id: nat)
    requires CallGuard(v, ctxDone, op) && id in CallEffect(v, ctxDone, |out|, op).calls
    requires id in v.calls ==>
               EndFits(out + CallEmits(v, op), ctxDone, id, v.calls[id]) && KindFits(v.opens, id, v.calls[id])
    requires op.SendCancel? ==> CancelTaken(out + CallEmits(v, op), op.id)
    requires !op.ServeEnds? && !op.SendRequest? && !op.SendCancel?
    ensures EndFits(out + CallEmits(v, op), ctxDone, id, CallEffect(v, ctxDone, |out|, op).calls[id])
  {
    hide CancelTaken, CallEmits;
  }

  lemma CallEnds(e: Endpoint, op: CallOp)
    requires Local(e) && AllEndsFit(e) && CallGuard(e.inv, e.io.ctxDone, op)
    ensures forall id | id in CallEffect(e.inv, e.io.ctxDone, |e.io.out|, op).calls ::
              EndFits(e.io.out + CallEmits(e.inv, op), e.io.ctxDone, id,
                      CallEffect(e.inv, e.io.ctxDone, |e.io.out|, op).calls[id])
  {
    if op.SendCancel? { SentCancelIsTaken(e.io.out, op.id, op.cause); }
    hide Local, EndFits, CallEffect, CallGuard, CancelTaken;
    forall id | id in CallEffect(e.inv, e.io.ctxDone, |e.io.out|, op).calls
      ensures EndFits(e.io.out + CallEmits(e.inv, op), e.io.ctxDone, id,
                      CallEffect(e.inv, e.io.ctxDone, |e.io.out|, op).calls[id])
    {
      if id in e.inv.calls {
        CallHasKind(e, id);
        EndFitsLater(e.io.out, e.io.ctxDone, e.io.out + CallEmits(e.inv, op), e.io.ctxDone, id, e.inv.calls[id]);
      }
      CallStepEnds(e.inv, e.io.ctxDone, e.io.out, op, id);
    }
  }

  lemma StepEnds(c: Config, cap: nat, e: Endpoint, p: Endpoint, op: Op)
    requires Good(e, p) && Guard(c, cap, e, p.io, op) && AllEndsFit(e)
    ensures AllEndsFit(Effect(c, cap, e, p.io, op))
  {
    hide Local, Shared, Guard, Effect, EndFits, CallEffect, CallGuard, CallEmits;
    OtherStepsKeepCalls(c, cap, e, p.io, op);
    StepGrows(c, cap, e, p.io, op);
    var e' := Effect(c, cap, e, p.io, op);
    if op.OfCall? {
      CallEnds(e, op.call);
      CallStepIo(c, cap, e, p.io, op.call);
    } else {
      forall id | id in e'.inv.calls ensures EndFits(e'.io.out, e'.io.ctxDone, id, e'.inv.calls[id]) {
        EndFitsLater(e.io.out, e.io.ctxDone, e'.io.out, e'.io.ctxDone, id, e.inv.calls[id]);
      }
    }
  }

  lemma CallStepIo(c: Config, cap: nat, e: Endpoint, peer: Io, op: CallOp)
    requires Guard(c, cap, e, peer, OfCall(op))
    ensures var io := Effect(c, cap, e, peer, OfCall(op)).io;
            io.out == e.io.out + CallEmits(e.inv, op) && io.ctxDone == e.io.ctxDone
  {
    hide CallEffect, CallGuard, CallEmits;
  }

  lemma {:induction false} RunEnds(w: World, s: Sys, acts: seq<Action>)
    requires Inv(s) && Good(s.b, s.a) && AllEndsFit(s.a) && AllEndsFit(s.b) && Run(w, s, acts).Some?
    ensures AllEndsFit(Run(w, s, acts).value.a) && AllEndsFit(Run(w, s, acts).value.b)
    decreases |acts|
  {
    hide Local, Shared, AllEndsFit, Guard, Effect;
    if acts != [] {
      var act := acts[0];
      StepKeepsInv(w, s, act);
      StepEnds(w.Of(act.x), w.cap, s.Of(act.x), s.Of(PeerOf(act.x)), act.op);
      RunEnds(w, Step(w, s, act), acts[1..]);
    }
  }

  /** How calls end. A notification that returned has reported success if and only if its request was
      handed over; otherwise serve's context had ended. An Invoke that has ended has the response it
      took, or its cancel packet was handed over, or serve's context had ended. */
  lemma HowCallsEnd(w: World, s: Sys, x: End, id: nat)
    requires Reachable(w, s) && id in s.Of(x).inv.calls
    ensures var c, out := s.Of(x).inv.calls[id], s.Of(x).io.out;
            && (c.kind.Notify? && c.pc.Returned? ==>
                  && (c.pc.ret == Sent <==> c.sentAt.Some?)
                  && (c.pc.ret == Sent ==> Request(RequestMsg(id, c.service, c.methodName, c.input, true)) in out)
                  && (c.pc.ret != Sent ==> c.pc.ret == Abandoned && s.Of(x).io.ctxDone))
            && (!c.kind.Notify? && RetOf(c.pc).Some? && !RetOf(c.pc).value.FromChannel? ==>
                  s.Of(x).io.ctxDone || exists i :: 0 <= i < |out| && out[i].CtxCancel? && out[i].id == id)
  {
    var acts: seq<Action> :| Run(w, INIT, acts) == Some(s);
    InitHolds();
    RunEnds(w, INIT, acts);
    GoodFrom(w, s, x);
    hide Run, Reachable;
    EndsAt(s.Of(x), id);
  }

  lemma EndsAt(e: Endpoint, id: nat)
    requires Local(e) && AllEndsFit(e) && id in e.inv.calls
    ensures var c, out := e.inv.calls[id], e.io.out;
            && (c.kind.Notify? && c.pc.Returned? ==>
                  && (c.pc.ret == Sent <==> c.sentAt.Some?)
                  && (c.pc.ret == Sent ==> Request(RequestMsg(id, c.service, c.methodName, c.input, true)) in out)
                  && (c.pc.ret != Sent ==> c.pc.ret == Abandoned && e.io.ctxDone))
            && (!c.kind.Notify? && RetOf(c.pc).Some? && !RetOf(c.pc).value.FromChannel? ==>
                  e.io.ctxDone || exists i :: 0 <= i < |out| && out[i].CtxCancel? && out[i].id == id)
  {
    assert EndFits(e.io.out, e.io.ctxDone, id, e.inv.calls[id]) && SentFits(e.inv, e.io.out, id) && GotFits(e.inv, id);
    hide Local, AllEndsFit;
    if CancelTaken(e.io.out, id) {
      var i :| 0 <= i < |e.io.out| && CancelsCall(e.io.out[i], id);
    }
  }

  // ---------------------------------------------------------------- which requests run a handler

  /** A request to open a stream that the service table lists has registered its stream once it was
      looked at, and its handler has started once it is finished. */
  predicate StreamServed(c: Config, r: Requests, t: Table, at: nat)
    requires at in r.reqs
  {
    var q := r.reqs[at];
    q.req.service == "" && ResolvesStream(c, q.req) && !q.pc.Started? ==>
      var k := Key(ServerSide, q.req.input.streamId);
      k in t.objs && t.objs[k].creator == at && (q.pc.Finished? ==> !t.objs[k].owner.NotStarted?)
  }

  /** A server end was registered for such a request. */
  predicate StreamAsked(c: Config, r: Requests, t: Table, k: Key)
    requires k in t.objs
  {
    k.side.ServerSide? ==> t.objs[k].creator in r.reqs && ResolvesStream(c, r.reqs[t.objs[k].creator].req)
  }

  ghost predicate StreamsServed(c: Config, e: Endpoint) {
    && (forall at | at in e.srv.reqs :: StreamServed(c, e.srv, e.str, at))
    && (forall k | k in e.str.objs :: StreamAsked(c, e.srv, e.str, k))
  }

  lemma RequestStepStreams(c: Config, e: Endpoint, op: RequestOp, at: nat)
    requires RequestGuard(c, e.srv, e.io.ctxDone, op) && at in e.srv.reqs && StreamServed(c, e.srv, e.str, at)
    requires Registers(c, e.srv, op) ==> Key(ServerSide, e.srv.reqs[op.at].req.input.streamId) !in e.str.objs
    requires ReqFits(e.srv, e.io.out, at)
    ensures at in RequestEffect(c, e.srv, e.io.ctxDone, |e.io.out|, op).reqs
    ensures StreamServed(c, RequestEffect(c, e.srv, e.io.ctxDone, |e.io.out|, op), RequestOnTable(c, e.srv, e.str, op),
                         at)
  {
  }

  lemma RequestStepAsked(c: Config, e: Endpoint, op: RequestOp, k: Key)
    requires RequestGuard(c, e.srv, e.io.ctxDone, op) && k in RequestOnTable(c, e.srv, e.str, op).objs
    requires k in e.str.objs ==> StreamAsked(c, e.srv, e.str, k)
    ensures StreamAsked(c, RequestEffect(c, e.srv, e.io.ctxDone, |e.io.out|, op), RequestOnTable(c, e.srv, e.str, op),
                        k)
  {
    hide ResolvesUnary, Decodes;
  }

  lemma RequestKeepsServed(c: Config, e: Endpoint, p: Endpoint, op: RequestOp)
    requires Good(e, p) && StreamsServed(c, e) && RequestGuard(c, e.srv, e.io.ctxDone, op)
    ensures var r, t := RequestEffect(c, e.srv, e.io.ctxDone, |e.io.out|, op), RequestOnTable(c, e.srv, e.str, op);
            && (forall at | at in r.reqs :: StreamServed(c, r, t, at))
               && (forall k | k in t.objs :: StreamAsked(c, r, t, k))
  {
    if Registers(c, e.srv, op) { AcceptedStreamIsFresh(c, e, p, op.at); }
    assert AnswersOk(e.srv, e.io.out);
    RequestKeys(c, e.srv, e.io.ctxDone, |e.io.out|, op);
    hide Good, ReqFits, AnswerFits, StreamServed, StreamAsked, RequestEffect, RequestOnTable, RequestGuard, Registers;
    var r, t := RequestEffect(c, e.srv, e.io.ctxDone, |e.io.out|, op), RequestOnTable(c, e.srv, e.str, op);
    forall at | at in r.reqs ensures StreamServed(c, r, t, at) { RequestStepStreams(c, e, op, at); }
    forall k | k in t.objs ensures StreamAsked(c, r, t, k) { RequestStepAsked(c, e, op, k); }
  }

  /** A change of the table that leaves creators alone and stops no handler from having started. */
  ghost predicate KeepsStarted(t: Table, t': Table) {
    && (forall k | k in t.objs ::
          k in t'.objs && t'.objs[k].creator == t.objs[k].creator
          && (t'.objs[k].owner.NotStarted? ==> t.objs[k].owner.NotStarted?))
    && (forall k | k in t'.objs && k !in t.objs :: k.side.ClientSide?)
  }

  lemma StreamKeepsStarted(v: Invokes, t: Table, ctxDone: bool, op: StreamOp)
    requires StreamGuard(v, t, ctxDone, op)
    ensures KeepsStarted(t, StreamEffect(v, t, ctxDone, op))
  {
  }

  lemma LinkKeepsStarted(cap: nat, e: Endpoint, peer: Io, op: LinkOp)
    requires LinkGuard(cap, e.io, peer, op)
    ensures KeepsStarted(e.str, LinkEffect(cap, e, peer, op).str)
  {
    hide Deliver, DoCancel;
  }

  /** The requests are the same, but for causes and new ones that nobody has looked at. */
  ghost predicate OnlyNew(r: Requests, r': Requests) {
    && (forall at | at in r.reqs ::
          at in r'.reqs && r'.reqs[at].req == r.reqs[at].req && r'.reqs[at].pc == r.reqs[at].pc)
    && (forall at | at in r'.reqs && at !in r.reqs :: r'.reqs[at].pc.Started?)
  }

  lemma LinkOnlyNew(cap: nat, e: Endpoint, peer: Io, op: LinkOp)
    requires LinkGuard(cap, e.io, peer, op) && (op.Read? ==> e.io.read !in e.srv.reqs)
    ensures OnlyNew(e.srv, LinkEffect(cap, e, peer, op).srv)
  {
    hide Dispatch, DoCleanup;
  }

  lemma StartedStaysServed(c: Config, e: Endpoint, r: Requests, t: Table)
    requires StreamsServed(c, e) && OnlyNew(e.srv, r) && KeepsStarted(e.str, t)
    ensures (forall at | at in r.reqs :: StreamServed(c, r, t, at))
    ensures (forall k | k in t.objs :: StreamAsked(c, r, t, k))
  {
    hide ResolvesStream;
    forall at | at in r.reqs ensures StreamServed(c, r, t, at) {
      if at in e.srv.reqs { assert StreamServed(c, e.srv, e.str, at); }
    }
    forall k | k in t.objs ensures StreamAsked(c, r, t, k) {
      if k in e.str.objs { assert StreamAsked(c, e.srv, e.str, k); }
    }
  }

  lemma SameRequests(r: Requests)
    ensures OnlyNew(r, r)
  {
  }

  lemma SameTable(t: Table)
    ensures KeepsStarted(t, t)
  {
  }

  lemma StepKeepsServed(c: Config, cap: nat, e: Endpoint, p: Endpoint, op: Op)
    requires Good(e, p) && Guard(c, cap, e, p.io, op) && StreamsServed(c, e)
    ensures StreamsServed(c, Effect(c, cap, e, p.io, op))
  {
    hide Local, Shared, StreamServed, StreamAsked, OnlyNew, KeepsStarted;
    hide RequestEffect, RequestGuard, RequestOnTable, StreamEffect, StreamGuard, CallEffect, LinkEffect, LinkGuard;
    match op
    case OfCall(_) =>
    case OfRequest(o) => RequestKeepsServed(c, e, p, o);
    case OfStream(o) =>
      SameRequests(e.srv);
      StreamKeepsStarted(e.inv, e.str, e.io.ctxDone, o);
      StartedStaysServed(c, e, e.srv, StreamEffect(e.inv, e.str, e.io.ctxDone, o));
    case OfLink(o) =>
      if o.Read? { NewAtRead(cap, e, p); }
      LinkOnlyNew(cap, e, p.io, o);
      LinkKeepsStarted(cap, e, p.io, o);
      StartedStaysServed(c, e, LinkEffect(cap, e, p.io, o).srv, LinkEffect(cap, e, p.io, o).str);
  }

  lemma NewAtRead(cap: nat, e: Endpoint, p: Endpoint)
    requires Good(e, p) && LinkGuard(cap, e.io, p.io, Read)
    ensures e.io.read !in e.srv.reqs
  {
    hide Local, TakenOk;
    ReadKeepsSpawns(e, p.io);
  }

  lemma {:induction false} RunKeepsServed(w: World, s: Sys, acts: seq<Action>)
    requires Inv(s) && Good(s.b, s.a) && StreamsServed(w.a, s.a) && StreamsServed(w.b, s.b) && Run(w, s, acts).Some?
    ensures StreamsServed(w.a, Run(w, s, acts).value.a) && StreamsServed(w.b, Run(w, s, acts).value.b)
    decreases |acts|
  {
    hide Local, Shared, StreamsServed, Guard, Effect;
    if acts != [] {
      var act := acts[0];
      StepKeepsInv(w, s, act);
      StepKeepsServed(w.Of(act.x), w.cap, s.Of(act.x), s.Of(PeerOf(act.x)), act.op);
      RunKeepsServed(w, Step(w, s, act), acts[1..]);
    }
  }

  /** Which requests run a handler follows from the service table and the message types alone. A unary
      request runs one only if its method is listed under its service and its message can be decoded,
      and then it has by the time it is over. A request without a service registers a stream and starts
      its handler if and only if it is a StreamRequest whose parameters name a listed stream. */
  lemma HandlersThatRun(w: World, s: Sys, x: End, at: nat)
    requires Reachable(w, s) && at in s.Of(x).srv.reqs
    ensures var q, c, t := s.Of(x).srv.reqs[at], w.Of(x), s.Of(x).str;
            if q.req.service != "" then
              var listed := q.req.service in c.services && q.req.methodName in c.services[q.req.service].methods
                            && q.req.input.Message? && q.req.input.any.typeName in c.types;
              (q.outcome.Some? ==> listed) && (q.pc.Removing? || q.pc.Finished? ==> (q.outcome.Some? <==> listed))
            else
              var listed := q.req.methodName == "StreamRequest" && q.req.input.OpenStream?
                            && q.req.input.service in c.services
                            && q.req.input.methodName in c.services[q.req.input.service].streams;
              && q.outcome.None?
              && (listed && !q.pc.Started? ==>
                    var k := Key(ServerSide, q.req.input.streamId);
                    k in t.objs && t.objs[k].creator == at && (q.pc.Finished? ==> !t.objs[k].owner.NotStarted?))
              && (!listed ==> forall k | k in t.objs && k.side.ServerSide? :: t.objs[k].creator != at)
  {
    var acts: seq<Action> :| Run(w, INIT, acts) == Some(s);
    InitHolds();
    RunKeepsServed(w, INIT, acts);
    ReachableServes(w, s, x);
    hide Run, Reachable;
    ServedAt(w.Of(x), s.Of(x), at);
  }

  lemma ServedAt(c: Config, e: Endpoint, at: nat)
    requires StreamsServed(c, e) && AllServed(c, e) && at in e.srv.reqs
    ensures Served(c, e.io.ctxDone, e.srv.reqs[at]) && StreamServed(c, e.srv, e.str, at)
    ensures !ResolvesStream(c, e.srv.reqs[at].req) ==> forall k | k in e.str.objs && k.side.ServerSide? ::
              e.str.objs[k].creator != at
  {
    forall k | k in e.str.objs && k.side.ServerSide? && e.str.objs[k].creator == at
      ensures ResolvesStream(c, e.srv.reqs[at].req) {
      assert StreamAsked(c, e.srv, e.str, k);
    }
    hide ResolvesStream, ResolvesUnary, Decodes;
  }

  // ---------------------------------------------------------------- what may happen

  /** Nothing users, contexts or the network may do is left out of the runs. Any call or stream can be
      started while there are ids. A running handler can return any outcome on a message it can decode.
      The context of a waiting call can end, with any cause. An idle user of an open stream can send
      any message or close it with any text, the handler of a stream can return in any way, and
      serve's context and the two goroutines of the connection can end at any time. */
  lemma NothingIsLeftOut(w: World, s: Sys, x: End)
    ensures forall service, methodName, any, notify ::
              Enabled(w, s, Starting(x, service, methodName, any, notify)) <==>
              s.Of(x).inv.lastId < 0xffff_ffff_ffff_ffff
    ensures forall service, methodName ::
              Enabled(w, s, Action(x, OfCall(StartOpen(service, methodName)))) <==>
              s.Of(x).inv.lastId < 0xffff_ffff_ffff_ffff
    ensures forall at, o ::
              Enabled(w, s, Returning(x, at, o)) <==>
              at in s.Of(x).srv.reqs && s.Of(x).srv.reqs[at].pc.Running? && s.Of(x).srv.reqs[at].req.input.Message? &&
              s.Of(x).srv.reqs[at].req.input.any.typeName in w.Of(x).types
    ensures forall id ::
              Enabled(w, s, Action(x, OfCall(CtxEnds(id)))) <==>
              id in s.Of(x).inv.calls && s.Of(x).inv.calls[id].pc.Waiting?
    ensures forall id, cause ::
              Enabled(w, s, Action(x, OfCall(SendCancel(id, cause)))) <==>
              id in s.Of(x).inv.calls && s.Of(x).inv.calls[id].pc.Cancelling? && CanHandOff(s.Of(x).io)
    ensures forall k, any ::
              Enabled(w, s, Action(x, OfStream(Send(k, any)))) <==>
              k in s.Of(x).str.objs && s.Of(x).str.objs[k].owner.Serving? && Idle(s.Of(x).str.objs[k]) &&
              s.Of(x).str.objs[k].st.active
    ensures forall k, error, any ::
              Enabled(w, s, Action(x, OfStream(CloseStream(k, error)))) <==>
              Enabled(w, s, Action(x, OfStream(Send(k, any))))
    ensures forall k, how ::
              Enabled(w, s, Action(x, OfStream(HandlerEnds(k, how)))) <==>
              k in s.Of(x).str.objs && k.side.ServerSide? && s.Of(x).str.objs[k].owner.Serving? &&
              Idle(s.Of(x).str.objs[k])
    ensures forall op | op in {EndCtx, StopReader, StopWriter} :: Enabled(w, s, Action(x, OfLink(op)))
  {
  }

  /** When streams come and go. NewStream registers its stream once its Invoke has returned a stream reply
      and no error, and only once. A server stream is unregistered after its handler has returned, and
      then everything it sent, its close included, was handed over in order. */
  lemma WhenStreamsComeAndGo(w: World, s: Sys, x: End, k: Key)
    requires Reachable(w, s)
    ensures Enabled(w, s, Action(x, OfStream(RegisterStream(k.id)))) <==>
            && k.id in s.Of(x).inv.opens && s.Of(x).inv.opens[k.id].InvokedAs?
            && s.Of(x).inv.opens[k.id].rid in s.Of(x).inv.calls && Key(ClientSide, k.id) !in s.Of(x).str.objs
            && var pc := s.Of(x).inv.calls[s.Of(x).inv.opens[k.id].rid].pc;
            pc.Returned? && pc.ret.FromChannel? && pc.ret.error == "" && pc.ret.out.Some?
            && pc.ret.out.value.StreamReply?
    ensures Enabled(w, s, Action(x, OfStream(EndStream(k)))) <==>
            k in s.Of(x).str.objs && s.Of(x).str.objs[k].owner.Ending? && s.Of(x).str.objs[k].pending.None? &&
            s.Of(x).str.objs[k].closing.None?
    ensures Enabled(w, s, Action(x, OfStream(EndStream(k)))) ==>
              && k in s.Of(x).str.objs && s.Of(x).str.objs[k].sent == SentBy(s.Of(x).io.out, k)
              && k !in Step(w, s, Action(x, OfStream(EndStream(k)))).Of(x).str.live
  {
    hide Reachable, Good, Enabled, Step;
    WhenRegistering(w, s, x, k.id);
    WhenEnding(w, s, x, k);
    if Enabled(w, s, Action(x, OfStream(EndStream(k)))) {
      GoodFrom(w, s, x);
      AllHandedOver(s.Of(x), s.Of(PeerOf(x)), k);
    }
  }

  lemma WhenRegistering(w: World, s: Sys, x: End, sid: nat)
    ensures Enabled(w, s, Action(x, OfStream(RegisterStream(sid)))) <==>
            && sid in s.Of(x).inv.opens && s.Of(x).inv.opens[sid].InvokedAs?
            && s.Of(x).inv.opens[sid].rid in s.Of(x).inv.calls && Key(ClientSide, sid) !in s.Of(x).str.objs
            && var pc := s.Of(x).inv.calls[s.Of(x).inv.opens[sid].rid].pc;
            pc.Returned? && pc.ret.FromChannel? && pc.ret.error == "" && pc.ret.out.Some?
            && pc.ret.out.value.StreamReply?
  {
  }

  lemma WhenEnding(w: World, s: Sys, x: End, k: Key)
    ensures Enabled(w, s, Action(x, OfStream(EndStream(k)))) <==>
            k in s.Of(x).str.objs && s.Of(x).str.objs[k].owner.Ending? && s.Of(x).str.objs[k].pending.None? &&
            s.Of(x).str.objs[k].closing.None?
    ensures Enabled(w, s, Action(x, OfStream(EndStream(k)))) ==>
              k !in Step(w, s, Action(x, OfStream(EndStream(k)))).Of(x).str.live
  {
  }

  lemma AllHandedOver(e: Endpoint, p: Endpoint, k: Key)
    requires Good(e, p) && k in e.str.objs && e.str.objs[k].pending.None?
    ensures e.str.objs[k].sent == SentBy(e.io.out, k)
  {
    assert ObjOk(e.str.objs[k], k, e.io.out, e.io.ctxDone);
    hide Local, Shared, SentBy, ObjQueue, ObjClose, ObjGraceful, ObjNumbered, ClosesLast;
  }

  /** The wire in either direction. */
  predicate WithinCapacity(w: World, s: Sys) {
    s.a.io.written <= s.b.io.read + w.cap && s.b.io.written <= s.a.io.read + w.cap
  }

  lemma LinkKeepsCounts(cap: nat, e: Endpoint, peer: Io, op: LinkOp)
    requires LinkGuard(cap, e.io, peer, op)
    ensures var io := LinkEffect(cap, e, peer, op).io;
            && io.read >= e.io.read && (io.written > e.io.written ==> io.written <= peer.read + cap)
  {
    hide Dispatch, DoCancel, DoCleanup;
  }

  lemma StepKeepsCapacity(w: World, s: Sys, act: Action)
    requires WithinCapacity(w, s) && Enabled(w, s, act)
    ensures WithinCapacity(w, Step(w, s, act))
  {
    hide StreamEffect, RequestEffect, CallEffect, StreamGuard, RequestGuard;
    hide CallGuard, RequestOnTable, LinkEffect, LinkGuard;
    if act.op.OfLink? { LinkKeepsCounts(w.cap, s.Of(act.x), s.Of(PeerOf(act.x)).io, act.op.link); }
  }

  lemma {:induction false} RunKeepsCapacity(w: World, s: Sys, acts: seq<Action>)
    requires WithinCapacity(w, s) && Run(w, s, acts).Some?
    ensures WithinCapacity(w, Run(w, s, acts).value)
    decreases |acts|
  {
    hide WithinCapacity, Step, Enabled;
    if acts != [] {
      StepKeepsCapacity(w, s, acts[0]);
      RunKeepsCapacity(w, Step(w, s, acts[0]), acts[1..]);
    }
  }

  /** The connection. No direction of the wire ever holds more unread packets than it has room for, and
      writing waits for nothing but room; reading waits only for something written, cleanup only for
      the reader's end. What ends, ends alone: serve's context, the reader and the writer do not take
      each other along. */
  lemma ConnectionSteps(w: World, s: Sys, x: End)
    requires Reachable(w, s)
    ensures s.Of(x).io.written - s.Of(PeerOf(x)).io.read <= w.cap
    ensures Enabled(w, s, Action(x, OfLink(Write))) <==>
            && s.Of(x).io.writing && s.Of(x).io.written < |s.Of(x).io.out|
            && s.Of(x).io.written - s.Of(PeerOf(x)).io.read < w.cap
    ensures Enabled(w, s, Action(x, OfLink(Read))) <==>
            s.Of(x).io.reading && s.Of(x).io.read < s.Of(PeerOf(x)).io.written
    ensures Enabled(w, s, Action(x, OfLink(Cleanup))) <==> !s.Of(x).io.reading && !s.Of(x).io.cleaned
    ensures var e := s.Of(x);
            && Step(w, s, Action(x, OfLink(EndCtx))) == s.With(x, e.(io := e.io.(ctxDone := true)))
            && Step(w, s, Action(x, OfLink(StopReader))) == s.With(x, e.(io := e.io.(reading := false)))
            && Step(w, s, Action(x, OfLink(StopWriter))) == s.With(x, e.(io := e.io.(writing := false)))
  {
    Capacity(w, s, x);
    GoodFrom(w, s, x);
    WrittenIsOut(s.Of(x), s.Of(PeerOf(x)));
    hide Reachable, Good, Enabled, Step;
    WireGuards(w, s, x);
    WhatEnds(w, s, x);
  }

  lemma Capacity(w: World, s: Sys, x: End)
    requires Reachable(w, s)
    ensures s.Of(x).io.written - s.Of(PeerOf(x)).io.read <= w.cap
  {
    var acts: seq<Action> :| Run(w, INIT, acts) == Some(s);
    RunKeepsCapacity(w, INIT, acts);
    hide Run, Reachable;
  }

  lemma WireGuards(w: World, s: Sys, x: End)
    requires s.Of(PeerOf(x)).io.written <= |s.Of(PeerOf(x)).io.out|
    ensures Enabled(w, s, Action(x, OfLink(Write))) <==>
            && s.Of(x).io.writing && s.Of(x).io.written < |s.Of(x).io.out|
            && s.Of(x).io.written - s.Of(PeerOf(x)).io.read < w.cap
    ensures Enabled(w, s, Action(x, OfLink(Read))) <==>
            s.Of(x).io.reading && s.Of(x).io.read < s.Of(PeerOf(x)).io.written
    ensures Enabled(w, s, Action(x, OfLink(Cleanup))) <==> !s.Of(x).io.reading && !s.Of(x).io.cleaned
  {
    hide StreamGuard, RequestGuard, CallGuard;
  }

  lemma WhatEnds(w: World, s: Sys, x: End)
    ensures var e := s.Of(x);
            && Enabled(w, s, Action(x, OfLink(EndCtx))) && Enabled(w, s, Action(x, OfLink(StopReader)))
            && Enabled(w, s, Action(x, OfLink(StopWriter)))
            && Step(w, s, Action(x, OfLink(EndCtx))) == s.With(x, e.(io := e.io.(ctxDone := true)))
            && Step(w, s, Action(x, OfLink(StopReader))) == s.With(x, e.(io := e.io.(reading := false)))
            && Step(w, s, Action(x, OfLink(StopWriter))) == s.With(x, e.(io := e.io.(writing := false)))
  {
    hide DoRead, DoCleanup, StreamGuard, RequestGuard, CallGuard, StreamEffect, RequestEffect, CallEffect;
  }

  lemma WrittenIsOut(e: Endpoint, p: Endpoint)
    requires Good(e, p)
    ensures e.io.written <= |e.io.out| && p.io.written <= |p.io.out|
  {
  }
}
