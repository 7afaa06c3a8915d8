/** When a response can block for ever. processResponse sends on an unbuffered channel while it
    holds invokesMu for reading; the deferred function of an Invoke that stopped receiving needs
    invokesMu for writing (xrpc/conn.go:455-467, 601-610 and 626-648). */
module Deadlock {
  import opened Packets
  import opened Protocol
  import opened CallInvariants
  import opened WireInvariants
  import opened Invariants
  import opened CallGuarantees

  /** The call took a Done branch of its select: it will not receive any more, and it is still
      in `invokes`. */
  predicate LeftThroughDone(v: Invokes, id: nat) {
    id in v.calls &&
    match v.calls[id].pc
    case Cancelling => true
    case Leaving(ret) => !ret.FromChannel?
    case DelLock(ret) => !ret.FromChannel?
    case _ => false
  }

  /** The call is at its select or, holding no lock, about to reach it. */
  predicate AboutToReceive(v: Invokes, id: nat) {
    id in v.calls && (v.calls[id].pc.Handed? || v.calls[id].pc.Waiting?)
  }

  predicate Sends(v: Invokes, at: nat) {
    at in v.resps && v.resps[at].pc.Sending?
  }

  predicate Stuck(v: Invokes, at: nat) {
    Sends(v, at) && LeftThroughDone(v, v.resps[at].id)
  }

  // ---------------------------------------------------------------- the boundary

  lemma SendersCall(e: Endpoint, p: Endpoint, at: nat)
    requires Good(e, p) && Sends(e.inv, at)
    ensures AboutToReceive(e.inv, e.inv.resps[at].id) || LeftThroughDone(e.inv, e.inv.resps[at].id)
  {
    var v, id := e.inv, e.inv.resps[at].id;
    assert at in v.readers;
    assert CallFits(v, id);
    assert AnswerFits(p.srv, p.io.out, at);
    var k := p.srv.answeredBy[at];
    assert ReqFits(p.srv, p.io.out, k);
    RequestIsFromCall(e, p, k);
    assert SentFits(v, e.io.out, id);
    if RetOf(v.calls[id].pc).Some? && RetOf(v.calls[id].pc).value.FromChannel? {
      ResultIsFromHandler(e, p, id);
    }
  }

  /** In every reachable state a blocked send has its call either on the way to the matching
      receive, holding no lock, or gone through a Done branch; it is one or the other. In the
      first case the hand-over happens within two steps of the call and the sender; the second
      is the deadlock. */
  lemma DeadlockBoundary(w: World, s: Sys, x: End, at: nat)
    requires Reachable(w, s) && Sends(s.Of(x).inv, at)
    ensures var v := s.Of(x).inv; var id := v.resps[at].id;
            && (AboutToReceive(v, id) <==> !Stuck(v, at))
            && (!Stuck(v, at) && v.calls[id].pc.Handed? ==>
                  Run(w, s, [Action(x, OfCall(Arrive(id))), Action(x, OfCall(HandOver(at)))]).Some?)
            && (!Stuck(v, at) && v.calls[id].pc.Waiting? ==> Enabled(w, s, Action(x, OfCall(HandOver(at)))))
            && (Stuck(v, at) ==> !Enabled(w, s, Action(x, OfCall(HandOver(at)))) &&
                                 forall other :: !Enabled(w, s, Action(x, OfCall(Grant(other)))))
  {
    hide Good, Run, Reachable;
    GoodFrom(w, s, x);
    SendersCall(s.Of(x), s.Of(PeerOf(x)), at);
    NoGrant(s.Of(x), s.Of(PeerOf(x)), at);
    var v, id := s.Of(x).inv, s.Of(x).inv.resps[at].id;
    if v.calls[id].pc.Handed? { TwoSteps(w, s, x, at); }
  }

  /** While a response is being sent nobody is granted invokesMu for writing. */
  lemma NoGrant(e: Endpoint, p: Endpoint, at: nat)
    requires Good(e, p) && Sends(e.inv, at)
    ensures forall other :: !CanGrant(e.inv, other)
  {
    assert at in e.inv.readers;
  }

  lemma TwoSteps(w: World, s: Sys, x: End, at: nat)
    requires Sends(s.Of(x).inv, at) && HasCall(s.Of(x).inv, s.Of(x).inv.resps[at].id, Handed)
    ensures Run(w, s, [Action(x, OfCall(Arrive(s.Of(x).inv.resps[at].id))), Action(x, OfCall(HandOver(at)))]).Some?
  {
    var id := s.Of(x).inv.resps[at].id;
    var acts := [Action(x, OfCall(Arrive(id))), Action(x, OfCall(HandOver(at)))];
    assert Enabled(w, s, acts[0]);
    var t := Step(w, s, acts[0]);
    assert t.Of(x).inv == SetPc(s.Of(x).inv, id, Waiting);
    assert Enabled(w, t, acts[1]) && acts[1..] == [acts[1]];
    assert Run(w, Step(w, t, acts[1]), acts[1..][1..]).Some?;
    assert Run(w, t, acts[1..]).Some?;
  }

  // ---------------------------------------------------------------- stuck is for ever

  lemma CallStepKeepsStuck(v: Invokes, ctxDone: bool, pos: nat, op: CallOp, at: nat)
    requires CallsOk(v) && Stuck(v, at) && CallGuard(v, ctxDone, op)
    ensures Stuck(CallEffect(v, ctxDone, pos, op), at)
    ensures CallEffect(v, ctxDone, pos, op).invokes == v.invokes
  {
    assert at in v.readers && v.lastId + 1 !in v.calls && CallFits(v, v.resps[at].id);
    hide CallsOk, CallEffect;
    InvokesFrozen(v, ctxDone, pos, op);
    if op.LockResponse? || op.HandOver? { ResponsesLeaveStuck(v, ctxDone, pos, op, at); }
    else { CallsLeaveStuck(v, ctxDone, pos, op, at); }
  }

  /** While invokesMu is held for reading, nothing is registered or unregistered. */
  lemma InvokesFrozen(v: Invokes, ctxDone: bool, pos: nat, op: CallOp)
    requires v.readers != {} && CallGuard(v, ctxDone, op)
    ensures CallEffect(v, ctxDone, pos, op).invokes == v.invokes
  {
  }

  lemma ResponsesLeaveStuck(v: Invokes, ctxDone: bool, pos: nat, op: CallOp, at: nat)
    requires Stuck(v, at) && CallGuard(v, ctxDone, op) && (op.LockResponse? || op.HandOver?)
    ensures Stuck(CallEffect(v, ctxDone, pos, op), at)
  {
  }

  lemma CallsLeaveStuck(v: Invokes, ctxDone: bool, pos: nat, op: CallOp, at: nat)
    requires v.readers != {} && v.lastId + 1 !in v.calls && Stuck(v, at) && CallGuard(v, ctxDone, op)
    requires !v.calls[v.resps[at].id].kind.Notify? && !op.LockResponse? && !op.HandOver?
    ensures Stuck(CallEffect(v, ctxDone, pos, op), at)
  {
  }

  lemma OtherStepKeepsStuck(c: Config, cap: nat, e: Endpoint, peer: Io, op: Op, at: nat)
    requires Guard(c, cap, e, peer, op) && !op.OfCall? && Stuck(e.inv, at) && e.io.read !in e.inv.resps
    ensures Stuck(Effect(c, cap, e, peer, op).inv, at)
    ensures Effect(c, cap, e, peer, op).inv.invokes == e.inv.invokes
  {
  }

  lemma StepKeepsStuck(c: Config, cap: nat, e: Endpoint, p: Endpoint, op: Op, at: nat)
    requires Good(e, p) && Guard(c, cap, e, p.io, op) && Stuck(e.inv, at)
    ensures Stuck(Effect(c, cap, e, p.io, op).inv, at)
    ensures Effect(c, cap, e, p.io, op).inv.invokes == e.inv.invokes
  {
    assert CallsOk(e.inv) && RespsOk(e.inv, e.io.read, p.io.out);
    hide Good, CallsOk, Stuck;
    if op.OfCall? { CallStepKeepsStuck(e.inv, e.io.ctxDone, |e.io.out|, op.call, at); }
    else { OtherStepKeepsStuck(c, cap, e, p.io, op, at); }
  }

  /** Once stuck, stuck for ever, whatever either endpoint does, tearing the connection down
      included; and no call of that endpoint is ever registered or unregistered again. */
  lemma {:induction false} StuckForever(w: World, s: Sys, acts: seq<Action>, x: End, at: nat)
    requires Inv(s) && Run(w, s, acts).Some? && Stuck(s.Of(x).inv, at)
    ensures Stuck(Run(w, s, acts).value.Of(x).inv, at)
    ensures Run(w, s, acts).value.Of(x).inv.invokes == s.Of(x).inv.invokes
    decreases |acts|
  {
    hide Local, Shared, Stuck;
    if acts != [] {
      var act := acts[0];
      StepKeepsInv(w, s, act);
      if act.x == x { StepKeepsStuck(w.Of(x), w.cap, s.Of(x), s.Of(PeerOf(x)), act.op, at); }
      StuckForever(w, Step(w, s, act), acts[1..], x, at);
    }
  }

  /** A registered call has not returned; an unregistered one has not sent its request, or
      has returned. */
  lemma RegisteredOrNot(v: Invokes, id: nat)
    requires CallsOk(v)
    ensures id in v.invokes ==> id in v.calls && !v.calls[id].pc.Returned?
    ensures id !in v.invokes && id in v.calls && !v.calls[id].kind.Notify? ==>
              v.calls[id].pc.Fresh? || v.calls[id].pc.RegLock? || v.calls[id].pc.Returned?
  {
    if id in v.calls { assert CallFits(v, id); }
  }

  /** So a call whose request has not been registered yet never sends it, and a stuck call never
      returns. */
  lemma StuckBlocksTheEndpoint(w: World, s: Sys, acts: seq<Action>, x: End, at: nat, id: nat)
    requires Reachable(w, s) && Run(w, s, acts).Some? && Stuck(s.Of(x).inv, at)
    ensures var v, v' := s.Of(x).inv, Run(w, s, acts).value.Of(x).inv;
            && (id in v.invokes ==> id in v'.calls && !v'.calls[id].pc.Returned?)
            && (id !in v.invokes && id in v'.calls && !v'.calls[id].kind.Notify? ==>
                  v'.calls[id].pc.Fresh? || v'.calls[id].pc.RegLock? || v'.calls[id].pc.Returned?)
  {
    ReachableInv(w, s);
    hide Shared, CallsOk, Run, Stuck, Reachable;
    StuckForever(w, s, acts, x, at);
    RunKeepsInv(w, s, acts);
    RegisteredOrNot(Run(w, s, acts).value.Of(x).inv, id);
  }

  // ---------------------------------------------------------------- without Done branches

  /** The steps by which a call gives up. */
  predicate GivesUp(op: Op) {
    op.OfCall? && (op.call.CtxEnds? || op.call.ServeEnds?)
  }

  ghost predicate NoneLeft(v: Invokes) {
    forall id | id in v.calls :: !LeftThroughDone(v, id) && v.calls[id].pc != Returned(Abandoned)
  }

  lemma NoneLeaves(c: Config, cap: nat, e: Endpoint, peer: Io, op: Op)
    requires NoneLeft(e.inv) && Guard(c, cap, e, peer, op) && !GivesUp(op)
    ensures NoneLeft(Effect(c, cap, e, peer, op).inv)
  {
    if op.OfCall? {
      var v, w := e.inv, CallEffect(e.inv, e.io.ctxDone, |e.io.out|, op.call);
      forall id | id in w.calls ensures !LeftThroughDone(w, id) && w.calls[id].pc != Returned(Abandoned) {
        assert id in v.calls ==> !LeftThroughDone(v, id);
        OneStays(v, e.io.ctxDone, |e.io.out|, op.call, id);
      }
    }
  }

  lemma OneStays(v: Invokes, ctxDone: bool, pos: nat, op: CallOp, id: nat)
    requires CallGuard(v, ctxDone, op) && !op.CtxEnds? && !op.ServeEnds?
    requires id in CallEffect(v, ctxDone, pos, op).calls
    requires id in v.calls ==> !LeftThroughDone(v, id) && v.calls[id].pc != Returned(Abandoned)
    ensures !LeftThroughDone(CallEffect(v, ctxDone, pos, op), id)
    ensures CallEffect(v, ctxDone, pos, op).calls[id].pc != Returned(Abandoned)
  {
  }

  lemma {:induction false} NoneLeftAfter(w: World, s: Sys, acts: seq<Action>)
    requires Run(w, s, acts).Some? && forall a | a in acts :: !GivesUp(a.op)
    requires NoneLeft(s.a.inv) && NoneLeft(s.b.inv)
    ensures NoneLeft(Run(w, s, acts).value.a.inv) && NoneLeft(Run(w, s, acts).value.b.inv)
    decreases |acts|
  {
    hide NoneLeft;
    if acts != [] {
      var act := acts[0];
      assert act in acts;
      NoneLeaves(w.Of(act.x), w.cap, s.Of(act.x), s.Of(PeerOf(act.x)).io, act.op);
      NoneLeftAfter(w, Step(w, s, act), acts[1..]);
    }
  }

  /** If no call gives up, no send is ever stuck: its call is always at, or lock-free on its way
      to, the matching receive. */
  lemma NoDeadlockWithoutDone(w: World, acts: seq<Action>, x: End, at: nat)
    requires Run(w, INIT, acts).Some? && forall a | a in acts :: !GivesUp(a.op)
    requires Sends(Run(w, INIT, acts).value.Of(x).inv, at)
    ensures var v := Run(w, INIT, acts).value.Of(x).inv; AboutToReceive(v, v.resps[at].id) && !Stuck(v, at)
  {
    var s := Run(w, INIT, acts).value;
    NoneLeftAfter(w, INIT, acts);
    assert Reachable(w, s);
    DeadlockBoundary(w, s, x, at);
    assert NoneLeft(s.Of(x).inv);
    hide Run, Reachable;
  }
}
