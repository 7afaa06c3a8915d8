/** After serve's context has ended, every call of the endpoint returns, unless a response stuck in
    its send keeps invokesMu from it (xrpc/conn.go:455-467, 601-628 and 666-673). */
module Shutdown {
  import opened Packets
  import opened Protocol
  import opened CallInvariants
  import opened WireInvariants
  import opened Invariants
  import opened CallGuarantees
  import opened Deadlock
  import opened Liveness
  import opened Progress
  import opened Sums

  /** The steps of calls and of processResponse that need no one else, and the Done branch of the
      serve context. */
  predicate WindsDown(op: CallOp) {
    Internal(OfCall(op)) || op.ServeEnds?
  }

  /** All steps of the run are of this kind, at endpoint `x`. */
  predicate WindDownRun(acts: seq<Action>, x: End) {
    forall a | a in acts :: a.x == x && a.op.OfCall? && WindsDown(a.op.call)
  }

  lemma ServeEndUses(v: Invokes, id: nat)
    requires CanServeEnd(v, id)
    ensures CallWork(DoServeEnd(v, id)) < CallWork(v)
  {
    var w := DoServeEnd(v, id);
    MapSumUpdate(v.calls, CallRank, id, w.calls[id]);
  }

  lemma WindDownUses(e: Endpoint, op: CallOp)
    requires Local(e) && WindsDown(op) && CallGuard(e.inv, e.io.ctxDone, op)
    ensures CallWork(CallEffect(e.inv, e.io.ctxDone, |e.io.out|, op)) < CallWork(e.inv)
  {
    CallsPlain(e);
    hide Local, CallWork;
    if op.ServeEnds? { ServeEndUses(e.inv, op.id); }
    else { CallUses(e.inv, e.io.ctxDone, |e.io.out|, op); }
  }

  /** Winding down ends. */
  lemma {:induction false} WindDownEnds(w: World, s: Sys, acts: seq<Action>, x: End)
    requires Inv(s) && Good(s.b, s.a) && Run(w, s, acts).Some? && WindDownRun(acts, x)
    ensures var t := Run(w, s, acts).value;
            && Inv(t) && Good(t.b, t.a) && |acts| <= CallWork(s.Of(x).inv)
            && (s.Of(x).io.ctxDone ==> t.Of(x).io.ctxDone)
    decreases |acts|
  {
    hide Local, Shared, CallWork, CallEffect, CallGuard, CallEmits;
    if acts != [] {
      var act := acts[0];
      assert act in acts && forall a | a in acts[1..] :: a in acts;
      StepKeepsInv(w, s, act);
      WindDownUses(s.Of(x), act.op.call);
      WindDownEnds(w, Step(w, s, act), acts[1..], x);
    }
  }

  /** Nothing is left to wind down. */
  ghost predicate WoundDown(w: World, s: Sys, x: End) {
    forall op: CallOp :: WindsDown(op) ==> !Enabled(w, s, Action(x, OfCall(op)))
  }

  ghost predicate AllHaveReturned(v: Invokes) {
    forall id | id in v.calls :: v.calls[id].pc.Returned?
  }

  lemma NotEnabled(w: World, s: Sys, x: End, op: CallOp)
    requires WoundDown(w, s, x) && WindsDown(op) && CallEmits(s.Of(x).inv, op) == []
    ensures !CallGuard(s.Of(x).inv, s.Of(x).io.ctxDone, op)
  {
    assert !Enabled(w, s, Action(x, OfCall(op)));
    hide CallGuard, CallEmits;
  }

  /** A response that is sent while nothing moves is stuck. */
  lemma SenderIsStuck(w: World, s: Sys, x: End, at: nat)
    requires Good(s.Of(x), s.Of(PeerOf(x))) && WoundDown(w, s, x) && Sends(s.Of(x).inv, at)
    ensures Stuck(s.Of(x).inv, at)
  {
    hide Good, WoundDown, LeftThroughDone, Enabled;
    SendersCall(s.Of(x), s.Of(PeerOf(x)), at);
    NotEnabled(w, s, x, Arrive(s.Of(x).inv.resps[at].id));
    NotEnabled(w, s, x, HandOver(at));
  }

  /** When invokesMu is announced and nothing moves, a response is stuck. */
  lemma AnnouncedMeansStuck(w: World, s: Sys, x: End)
    requires Good(s.Of(x), s.Of(PeerOf(x))) && WoundDown(w, s, x) && s.Of(x).inv.announced.Some?
    ensures exists at :: Stuck(s.Of(x).inv, at)
  {
    hide Local, Shared, WoundDown, Stuck, Enabled, Sends;
    var v := s.Of(x).inv;
    AnnouncedAtLock(s.Of(x));
    NotEnabled(w, s, x, Grant(v.announced.value));
    assert v.readers != {};
    var at :| at in v.readers;
    SenderIsStuck(w, s, x, at);
  }

  lemma ReturnedOrStuck(w: World, s: Sys, x: End, id: nat)
    requires Good(s.Of(x), s.Of(PeerOf(x))) && WoundDown(w, s, x) && s.Of(x).io.ctxDone
    requires id in s.Of(x).inv.calls && !s.Of(x).inv.calls[id].pc.Returned?
    ensures exists at :: Stuck(s.Of(x).inv, at)
  {
    hide WoundDown, Stuck, CallGuard, CallEmits, WindsDown, Local, Shared;
    if s.Of(x).inv.announced.Some? {
      AnnouncedMeansStuck(w, s, x);
    } else {
      var op := PendingCanMove(s.Of(x), id);
      NotEnabled(w, s, x, op);
    }
  }

  /** A pending call moves on, when nobody has announced the lock and serve's context has ended. */
  lemma PendingCanMove(e: Endpoint, id: nat) returns (op: CallOp)
    requires Local(e) && id in e.inv.calls && !e.inv.calls[id].pc.Returned? && e.inv.announced.None? && e.io.ctxDone
    ensures WindsDown(op) && CallGuard(e.inv, e.io.ctxDone, op) && CallEmits(e.inv, op) == []
  {
    PendingState(e, id);
    hide Local;
    if CanAnnounce(e.inv, id) { op := Announce(id); }
    else if e.inv.calls[id].pc.Handed? { op := Arrive(id); }
    else { op := ServeEnds(id); }
  }

  /** Let serve's context have ended at an endpoint. Its calls wind down in at most as many steps as
      they have work left, whatever the peer does; and when nothing is left to wind down, every
      call has returned if and only if no response is stuck. */
  lemma ShutdownCompletes(w: World, s: Sys, acts: seq<Action>, x: End)
    requires Reachable(w, s) && s.Of(x).io.ctxDone && Run(w, s, acts).Some? && WindDownRun(acts, x)
    ensures |acts| <= CallWork(s.Of(x).inv)
    ensures var t := Run(w, s, acts).value;
            WoundDown(w, t, x) ==>
              (AllHaveReturned(t.Of(x).inv) <==> !exists at :: Stuck(t.Of(x).inv, at))
  {
    hide Local, Shared, Run, Reachable, CallWork, WoundDown, Stuck;
    ReachableInv(w, s);
    WindDownEnds(w, s, acts, x);
    var t := Run(w, s, acts).value;
    if WoundDown(w, t, x) {
      forall id | id in t.Of(x).inv.calls && !t.Of(x).inv.calls[id].pc.Returned?
        ensures exists at :: Stuck(t.Of(x).inv, at)
      {
        ReturnedOrStuck(w, t, x, id);
      }
      forall at | Stuck(t.Of(x).inv, at)
        ensures exists id :: id in t.Of(x).inv.calls && !t.Of(x).inv.calls[id].pc.Returned?
      {
        StuckCall(t.Of(x).inv, at);
      }
    }
  }

  lemma StuckCall(v: Invokes, at: nat)
    requires Stuck(v, at)
    ensures at in v.resps && v.resps[at].id in v.calls && !v.calls[v.resps[at].id].pc.Returned?
  {
  }

  // ---------------------------------------------------------------- when the end can get stuck

  /** A response is being sent to its call, or has arrived and still finds it: its call is in `invokes`,
      and not about to be removed from it. */
  predicate AwaitsDelivery(v: Invokes, at: nat) {
    && at in v.resps && v.resps[at].id in v.invokes && v.resps[at].id in v.calls
    && (v.resps[at].pc.Sending? || (v.resps[at].pc.Arrived? && !v.calls[v.resps[at].id].pc.DelLock?))
  }

  ghost predicate NoneAwaits(v: Invokes) {
    forall at :: !AwaitsDelivery(v, at)
  }

  /** What is known of the call a response is for. */
  predicate CallOfResponse(v: Invokes, at: nat)
    requires at in v.resps
  {
    var id := v.resps[at].id;
    && id in v.calls && !v.calls[id].kind.Notify? && !NotSentYet(v.calls[id].pc)
    && (id in v.invokes <==> InWindow(v.calls[id].pc))
    && (v.calls[id].pc.DelLock? ==> v.announced == Some(id))
  }

  lemma ResponseHasCall(e: Endpoint, p: Endpoint, at: nat)
    requires Good(e, p) && at in e.inv.resps
    ensures CallOfResponse(e.inv, at)
  {
    RespPacket(e, p, at);
    ResponsesRequest(e, p, at);
    SentCallIsPast(e, e.inv.resps[at].id);
    assert CallFits(e.inv, e.inv.resps[at].id);
    hide Local, Shared;
  }

  /** No step of a call or of processResponse brings a response to a call it did not find before. */
  lemma StepKeepsNoneAwaiting(v: Invokes, ctxDone: bool, pos: nat, op: CallOp, at: nat)
    requires CallGuard(v, ctxDone, op) && !AwaitsDelivery(v, at)
    requires at in v.resps ==> CallOfResponse(v, at)
    requires v.lastId + 1 !in v.invokes
    ensures !AwaitsDelivery(CallEffect(v, ctxDone, pos, op), at)
  {
  }

  lemma CallKeepsNoneAwaiting(e: Endpoint, p: Endpoint, op: CallOp)
    requires Good(e, p) && CallGuard(e.inv, e.io.ctxDone, op) && NoneAwaits(e.inv)
    ensures NoneAwaits(CallEffect(e.inv, e.io.ctxDone, |e.io.out|, op))
  {
    NextIsFree(e);
    hide Local, Shared, CallGuard, CallEffect, AwaitsDelivery, CallOfResponse;
    forall at: nat ensures !AwaitsDelivery(CallEffect(e.inv, e.io.ctxDone, |e.io.out|, op), at) {
      if at in e.inv.resps { ResponseHasCall(e, p, at); }
      StepKeepsNoneAwaiting(e.inv, e.io.ctxDone, |e.io.out|, op, at);
    }
  }

  lemma NextIsFree(e: Endpoint)
    requires Local(e)
    ensures e.inv.lastId + 1 !in e.inv.invokes
  {
    forall id | id in e.inv.invokes ensures id <= e.inv.lastId { assert CallFits(e.inv, id); }
  }

  lemma {:induction false} NoneAwaitsAfter(w: World, s: Sys, acts: seq<Action>, x: End)
    requires Inv(s) && Good(s.b, s.a) && Run(w, s, acts).Some? && WindDownRun(acts, x) && NoneAwaits(s.Of(x).inv)
    ensures NoneAwaits(Run(w, s, acts).value.Of(x).inv)
    decreases |acts|
  {
    hide Local, Shared, NoneAwaits, CallEffect, CallGuard, CallEmits;
    if acts != [] {
      var act := acts[0];
      assert act in acts && forall a | a in acts[1..] :: a in acts;
      StepKeepsInv(w, s, act);
      CallKeepsNoneAwaiting(s.Of(x), s.Of(PeerOf(x)), act.op.call);
      NoneAwaitsAfter(w, Step(w, s, act), acts[1..], x);
    }
  }

  lemma StuckAwaits(e: Endpoint, at: nat)
    requires Local(e) && Stuck(e.inv, at)
    ensures AwaitsDelivery(e.inv, at)
  {
    assert at in e.inv.readers;
  }

  /** A run of steps of calls at `x` leads from `s` to `t`. */
  ghost predicate WindsTo(w: World, s: Sys, x: End, t: Sys) {
    exists acts :: Run(w, s, acts) == Some(t) && WindDownRun(acts, x)
  }

  lemma WindOn(w: World, s: Sys, t: Sys, x: End, op: CallOp) returns (u: Sys)
    requires WindsTo(w, s, x, t) && WindsDown(op) && CallGuard(t.Of(x).inv, t.Of(x).io.ctxDone, op)
    requires CallEmits(t.Of(x).inv, op) == []
    ensures WindsTo(w, s, x, u)
    ensures u.Of(x).inv == CallEffect(t.Of(x).inv, t.Of(x).io.ctxDone, |t.Of(x).io.out|, op)
    ensures u.Of(x).io.ctxDone == t.Of(x).io.ctxDone
  {
    var acts :| Run(w, s, acts) == Some(t) && WindDownRun(acts, x);
    var act := Action(x, OfCall(op));
    hide WindsDown, CallGuard, CallEffect, CallEmits;
    RunAppend(w, s, acts, act);
    u := Step(w, t, act);
    assert forall a | a in acts + [act] :: a in acts || a == act;
    assert WindDownRun(acts + [act], x);
  }

  lemma WindsNowhere(w: World, s: Sys, x: End)
    ensures WindsTo(w, s, x, s)
  {
    assert Run(w, s, []) == Some(s) && WindDownRun([], x);
  }

  /** The call of a response that is being sent leaves through the Done branch. */
  lemma CallLeaves(w: World, s: Sys, t: Sys, x: End, at: nat) returns (u: Sys)
    requires WindsTo(w, s, x, t) && t.Of(x).io.ctxDone && Sends(t.Of(x).inv, at)
    requires t.Of(x).inv.resps[at].id in t.Of(x).inv.calls && !t.Of(x).inv.calls[t.Of(x).inv.resps[at].id].kind.Notify?
    requires AboutToReceive(t.Of(x).inv, t.Of(x).inv.resps[at].id)
             || LeftThroughDone(t.Of(x).inv, t.Of(x).inv.resps[at].id)
    ensures WindsTo(w, s, x, u) && Stuck(u.Of(x).inv, at)
  {
    hide WindsTo, Run;
    u := t;
    var id := t.Of(x).inv.resps[at].id;
    if t.Of(x).inv.calls[id].pc.Handed? { u := WindOn(w, s, u, x, Arrive(id)); }
    if u.Of(x).inv.calls[id].pc.Waiting? { u := WindOn(w, s, u, x, ServeEnds(id)); }
  }

  /** A grant to another call leaves a response and its call where they are. */
  lemma GrantsOther(v: Invokes, other: nat, at: nat)
    requires CanGrant(v, other) && at in v.resps && v.resps[at].id in v.invokes
    requires v.resps[at].id in v.calls && v.resps[at].id != other
    ensures var v' := DoGrant(v, other); var id := v.resps[at].id;
            v'.announced.None? && v'.resps == v.resps && id in v'.invokes && id in v'.calls
            && v'.calls[id] == v.calls[id]
  {
  }

  lemma LookedUpSends(v: Invokes, at: nat)
    requires CanLockResponse(v, at) && v.resps[at].id in v.invokes
    ensures var v' := DoLockResponse(v, at); Sends(v', at) && v'.resps[at].id == v.resps[at].id && v'.calls == v.calls
  {
  }

  lemma AfterGrant(w: World, s: Sys, x: End, other: nat) returns (t: Sys)
    requires CanGrant(s.Of(x).inv, other)
    ensures WindsTo(w, s, x, t) && t.Of(x).io.ctxDone == s.Of(x).io.ctxDone
    ensures t.Of(x).inv == DoGrant(s.Of(x).inv, other)
  {
    hide WindsTo, DoGrant;
    WindsNowhere(w, s, x);
    t := WindOn(w, s, s, x, Grant(other));
  }

  lemma AfterLookUp(w: World, s: Sys, t: Sys, x: End, at: nat) returns (u: Sys)
    requires WindsTo(w, s, x, t) && CanLockResponse(t.Of(x).inv, at)
    ensures WindsTo(w, s, x, u) && u.Of(x).io.ctxDone == t.Of(x).io.ctxDone
    ensures u.Of(x).inv == DoLockResponse(t.Of(x).inv, at)
  {
    hide WindsTo, DoLockResponse;
    u := WindOn(w, s, t, x, LockResponse(at));
  }

  /** A response that still finds its call is looked up, after whoever announced the lock has had it. */
  lemma LooksUp(w: World, s: Sys, x: End, at: nat) returns (t: Sys)
    requires Good(s.Of(x), s.Of(PeerOf(x))) && s.Of(x).inv.readers == {}
    requires AwaitsDelivery(s.Of(x).inv, at) && s.Of(x).inv.resps[at].pc.Arrived?
    ensures WindsTo(w, s, x, t) && t.Of(x).io.ctxDone == s.Of(x).io.ctxDone && Sends(t.Of(x).inv, at)
    ensures var id := s.Of(x).inv.resps[at].id;
            t.Of(x).inv.resps[at].id == id && id in t.Of(x).inv.calls && t.Of(x).inv.calls[id] == s.Of(x).inv.calls[id]
  {
    var v := s.Of(x).inv;
    ResponseHasCall(s.Of(x), s.Of(PeerOf(x)), at);
    if v.announced.Some? { AnnouncedAtLock(s.Of(x)); }
    hide WindsTo, Good, DoGrant, DoLockResponse;
    if v.announced.Some? {
      GrantsOther(v, v.announced.value, at);
      t := AfterGrant(w, s, x, v.announced.value);
    } else {
      WindsNowhere(w, s, x);
      t := s;
    }
    LookedUpSends(t.Of(x).inv, at);
    t := AfterLookUp(w, s, t, x, at);
  }

  lemma ArrivedCall(e: Endpoint, p: Endpoint, at: nat)
    requires Good(e, p) && AwaitsDelivery(e.inv, at) && e.inv.resps[at].pc.Arrived?
    ensures AboutToReceive(e.inv, e.inv.resps[at].id) || LeftThroughDone(e.inv, e.inv.resps[at].id)
  {
    var v, id := e.inv, e.inv.resps[at].id;
    ResponseHasCall(e, p, at);
    RespPacket(e, p, at);
    ResponsesRequest(e, p, at);
    hide Local, Shared;
    if RetOf(v.calls[id].pc).Some? && RetOf(v.calls[id].pc).value.FromChannel? {
      ResultIsFromHandler(e, p, id);
      GotIsDelivered(e, p, id);
    }
  }

  lemma GetsStuck(w: World, s: Sys, x: End, at: nat) returns (t: Sys)
    requires Good(s.Of(x), s.Of(PeerOf(x))) && s.Of(x).io.ctxDone && AwaitsDelivery(s.Of(x).inv, at)
    ensures WindsTo(w, s, x, t) && exists other :: Stuck(t.Of(x).inv, other)
  {
    var e, p := s.Of(x), s.Of(PeerOf(x));
    ReadersSend(e);
    hide WindsTo, Good, Stuck, LeftThroughDone, AboutToReceive;
    if e.inv.readers != {} {
      var other :| other in e.inv.readers;
      SendersCall(e, p, other);
      ResponseHasCall(e, p, other);
      WindsNowhere(w, s, x);
      t := CallLeaves(w, s, s, x, other);
    } else {
      ArrivedCall(e, p, at);
      ResponseHasCall(e, p, at);
      t := LooksUp(w, s, x, at);
      SameCall(e.inv, t.Of(x).inv, e.inv.resps[at].id);
      t := CallLeaves(w, s, t, x, at);
    }
  }

  lemma SameCall(v: Invokes, v': Invokes, id: nat)
    requires id in v.calls && id in v'.calls && v'.calls[id] == v.calls[id]
    ensures (AboutToReceive(v, id) <==> AboutToReceive(v', id)) && (LeftThroughDone(v, id) <==> LeftThroughDone(v', id))
  {
  }

  lemma ReadersSend(e: Endpoint)
    requires Local(e)
    ensures forall at :: at in e.inv.readers <==> Sends(e.inv, at)
  {
  }

  /** Whether the end can get stuck is decided by the state in which serve's context has ended: some way
      of winding down leaves a response stuck if and only if one is being sent to its call, or has
      arrived and still finds it. Otherwise, in whatever order the calls wind down, all return. */
  lemma ShutdownBoundary(w: World, s: Sys, x: End)
    requires Reachable(w, s) && s.Of(x).io.ctxDone
    ensures (exists t, at :: WindsTo(w, s, x, t) && Stuck(t.Of(x).inv, at)) <==>
              (exists at :: AwaitsDelivery(s.Of(x).inv, at))
    ensures (forall at :: !AwaitsDelivery(s.Of(x).inv, at)) ==>
              forall t | WindsTo(w, s, x, t) && WoundDown(w, t, x) :: AllHaveReturned(t.Of(x).inv)
  {
    GoodFrom(w, s, x);
    ReachableInv(w, s);
    hide Local, Shared, Reachable, WindsTo, Stuck, AwaitsDelivery, WoundDown, AllHaveReturned;
    if at :| AwaitsDelivery(s.Of(x).inv, at) {
      var t := GetsStuck(w, s, x, at);
    } else {
      forall t, at | WindsTo(w, s, x, t) ensures !Stuck(t.Of(x).inv, at) { NeverStuck(w, s, x, t, at); }
      forall t | WindsTo(w, s, x, t) && WoundDown(w, t, x) ensures AllHaveReturned(t.Of(x).inv) {
        WoundDownReturned(w, s, x, t);
      }
    }
  }

  lemma NeverStuck(w: World, s: Sys, x: End, t: Sys, at: nat)
    requires Inv(s) && Good(s.b, s.a) && NoneAwaits(s.Of(x).inv) && WindsTo(w, s, x, t)
    ensures !Stuck(t.Of(x).inv, at)
  {
    var acts :| Run(w, s, acts) == Some(t) && WindDownRun(acts, x);
    hide Local, Shared, AwaitsDelivery, Stuck, WindDownRun;
    NoneAwaitsAfter(w, s, acts, x);
    WindDownEnds(w, s, acts, x);
    if Stuck(t.Of(x).inv, at) { StuckAwaits(t.Of(x), at); }
  }

  lemma WoundDownReturned(w: World, s: Sys, x: End, t: Sys)
    requires Reachable(w, s) && s.Of(x).io.ctxDone && NoneAwaits(s.Of(x).inv)
    requires WindsTo(w, s, x, t) && WoundDown(w, t, x)
    ensures AllHaveReturned(t.Of(x).inv)
  {
    ReachableInv(w, s);
    hide Local, Shared, Reachable, WoundDown, Stuck, NoneAwaits, WindDownRun, CallWork;
    var acts :| Run(w, s, acts) == Some(t) && WindDownRun(acts, x);
    ShutdownCompletes(w, s, acts, x);
    forall at ensures !Stuck(t.Of(x).inv, at) { NeverStuck(w, s, x, t, at); }
  }

  // ---------------------------------------------------------------- after the reader has stopped

  lemma OtherKeepsCalls(c: Config, cap: nat, e: Endpoint, peer: Io, op: Op)
    requires Guard(c, cap, e, peer, op) && !e.io.reading
    ensures !Effect(c, cap, e, peer, op).io.reading
    ensures !op.OfCall? ==> Effect(c, cap, e, peer, op).inv == e.inv
    ensures op.OfCall? ==> Effect(c, cap, e, peer, op).inv == CallEffect(e.inv, e.io.ctxDone, |e.io.out|, op.call)
  {
    hide StreamEffect, RequestEffect, CallEffect, RequestOnTable, Dispatch, DoCancel, DoCleanup, Emits;
  }

  lemma {:induction false} NoneAwaitsLater(w: World, s: Sys, acts: seq<Action>, x: End)
    requires Inv(s) && Good(s.b, s.a) && Run(w, s, acts).Some? && !s.Of(x).io.reading && NoneAwaits(s.Of(x).inv)
    ensures var t := Run(w, s, acts).value; NoneAwaits(t.Of(x).inv) && Local(t.Of(x))
    decreases |acts|
  {
    hide Local, Shared, NoneAwaits, Effect, Emits;
    if acts != [] {
      var act := acts[0];
      StepKeepsInv(w, s, act);
      if act.x == x {
        OtherKeepsCalls(w.Of(x), w.cap, s.Of(x), s.Of(PeerOf(x)).io, act.op);
        if act.op.OfCall? { CallKeepsNoneAwaiting(s.Of(x), s.Of(PeerOf(x)), act.op.call); }
      }
      NoneAwaitsLater(w, Step(w, s, act), acts[1..], x);
    }
  }

  /** Once the reader has stopped and no response is left that finds its call, none gets stuck in any
      continuation, whatever the users of both endpoints and the peer do. */
  lemma NothingSticksLater(w: World, s: Sys, acts: seq<Action>, x: End, at: nat)
    requires Reachable(w, s) && Run(w, s, acts).Some? && !s.Of(x).io.reading
    requires forall other :: !AwaitsDelivery(s.Of(x).inv, other)
    ensures !Stuck(Run(w, s, acts).value.Of(x).inv, at)
  {
    ReachableInv(w, s);
    hide Local, Shared, AwaitsDelivery, Stuck, Run, Reachable;
    NoneAwaitsLater(w, s, acts, x);
    if Stuck(Run(w, s, acts).value.Of(x).inv, at) { StuckAwaits(Run(w, s, acts).value.Of(x), at); }
  }

  /** Some continuation leaves a response of `x` stuck. */
  ghost predicate MayStick(w: World, s: Sys, x: End) {
    exists acts, at :: Run(w, s, acts).Some? && Stuck(Run(w, s, acts).value.Of(x).inv, at)
  }

  lemma SticksAfter(w: World, s: Sys, act: Action, x: End, t: Sys, at: nat)
    requires Enabled(w, s, act) && WindsTo(w, Step(w, s, act), x, t) && Stuck(t.Of(x).inv, at)
    ensures MayStick(w, s, x)
  {
    hide Enabled, Step, Stuck, WindDownRun;
    var acts :| Run(w, Step(w, s, act), acts) == Some(t) && WindDownRun(acts, x);
    var all := [act] + acts;
    assert all[0] == act && all[1..] == acts;
    assert Run(w, s, all) == Some(t);
  }

  lemma EndingContext(w: World, s: Sys, x: End)
    requires Reachable(w, s)
    ensures var act := Action(x, OfLink(EndCtx)); Enabled(w, s, act) && Reachable(w, Step(w, s, act))
    ensures var t := Step(w, s, Action(x, OfLink(EndCtx))); t.Of(x).io.ctxDone && t.Of(x).inv == s.Of(x).inv
  {
    var acts: seq<Action> :| Run(w, INIT, acts) == Some(s);
    RunAppend(w, INIT, acts, Action(x, OfLink(EndCtx)));
  }

  /** Once the reader has stopped, some continuation leaves a response stuck if and only if one is being
      sent to its call, or has arrived and still finds it; whatever the users of both endpoints and
      the peer do. */
  lemma StickingBoundary(w: World, s: Sys, x: End)
    requires Reachable(w, s) && !s.Of(x).io.reading
    ensures MayStick(w, s, x) <==> exists at :: AwaitsDelivery(s.Of(x).inv, at)
  {
    hide Local, Shared, Reachable, WindsTo, Stuck, AwaitsDelivery, Run, Enabled, Step;
    if at :| AwaitsDelivery(s.Of(x).inv, at) {
      EndingContext(w, s, x);
      var act := Action(x, OfLink(EndCtx));
      GoodFrom(w, Step(w, s, act), x);
      var t := GetsStuck(w, Step(w, s, act), x, at);
      var other :| Stuck(t.Of(x).inv, other);
      SticksAfter(w, s, act, x, t, other);
    } else {
      forall acts, at | Run(w, s, acts).Some? ensures !Stuck(Run(w, s, acts).value.Of(x).inv, at) {
        NothingSticksLater(w, s, acts, x, at);
      }
    }
  }
}
