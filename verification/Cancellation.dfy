/** Which cancel packets take effect. A call sends at most one, and what it does to the handler's
    context is settled when it is read: the context ends if and only if the request is registered
    in `cancels` at that moment (xrpc/conn.go:287-328, 403-413 and 629-647). */
module Cancellation {
  import opened Packets
  import opened Protocol
  import opened CallInvariants
  import opened WireInvariants
  import opened Invariants
  import opened CallGuarantees
  import opened Continuations

  predicate CancelsCall(p: Packet, id: nat) {
    p.CtxCancel? && p.id == id
  }

  predicate CancelsWith(p: Packet, id: nat, cause: Option<string>) {
    CancelsCall(p, id) && cause == Some(p.cause)
  }

  /** No call sends two cancel packets. */
  ghost predicate OneCancel(out: seq<Packet>) {
    forall i, j | 0 <= i < j < |out| && out[i].CtxCancel? :: !CancelsCall(out[j], out[i].id)
  }

  /** A cancel packet of call `id` is among those taken. */
  ghost predicate CancelTaken(taken: seq<Packet>, id: nat) {
    exists i :: 0 <= i < |taken| && CancelsCall(taken[i], id)
  }

  /** A handler's context has a cause only if the cancel packet with that cause was taken. */
  ghost predicate CauseFits(taken: seq<Packet>, q: Req) {
    q.cause.Some? ==> CtxCancel(q.req.id, q.cause.value) in taken
  }

  ghost predicate CausesOk(r: Requests, taken: seq<Packet>) {
    forall at | at in r.reqs :: CauseFits(taken, r.reqs[at])
  }

  lemma CauseWasTaken(taken: seq<Packet>, q: Req)
    requires CauseFits(taken, q) && q.cause.Some?
    ensures CancelTaken(taken, q.req.id)
  {
    var i :| 0 <= i < |taken| && taken[i] == CtxCancel(q.req.id, q.cause.value);
    assert CancelsCall(taken[i], q.req.id);
  }

  ghost predicate CausesFit(e: Endpoint, p: Endpoint)
    requires e.io.read <= |p.io.out|
  {
    OneCancel(p.io.out) && CausesOk(e.srv, p.io.out[..e.io.read])
  }

  // ---------------------------------------------------------------- one cancel packet a call

  lemma NoCancelYet(e: Endpoint, id: nat, i: nat)
    requires Local(e) && HasCall(e.inv, id, Cancelling) && i < |e.io.out|
    ensures !CancelsCall(e.io.out[i], id)
  {
    assert IssuedFits(e.inv, e.io.out, i);
  }

  lemma CancelEmitted(e: Endpoint, op: Op, q: Packet)
    requires q in Emits(e, op) && q.CtxCancel?
    ensures op.OfCall? && op.call.SendCancel? && op.call.id == q.id
  {
  }

  lemma OneCancelKept(c: Config, cap: nat, e: Endpoint, p: Endpoint, op: Op)
    requires Good(e, p) && Guard(c, cap, e, p.io, op) && OneCancel(e.io.out)
    ensures OneCancel(Effect(c, cap, e, p.io, op).io.out)
  {
    EffectEmits(c, cap, e, p.io, op);
    EmitsAtMostOne(e, op);
    if op.OfCall? && op.call.SendCancel? { assert HasCall(e.inv, op.call.id, Cancelling); }
    hide Good, Guard, Effect, Emits, CancelsCall, OneCancel, HasCall;
    NewCancels(e, p, op);
    OneCancelAppend(e.io.out, Emits(e, op));
  }

  lemma NewCancels(e: Endpoint, p: Endpoint, op: Op)
    requires Good(e, p)
    requires op.OfCall? && op.call.SendCancel? ==> HasCall(e.inv, op.call.id, Cancelling)
    ensures forall q, i | q in Emits(e, op) && q.CtxCancel? && 0 <= i < |e.io.out| :: !CancelsCall(e.io.out[i], q.id)
  {
    hide Local, Shared, Emits, CancelsCall, HasCall;
    forall q, i | q in Emits(e, op) && q.CtxCancel? && 0 <= i < |e.io.out| ensures !CancelsCall(e.io.out[i], q.id) {
      CancelEmitted(e, op, q);
      NoCancelYet(e, q.id, i);
    }
  }

  lemma OneCancelAppend(out: seq<Packet>, ps: seq<Packet>)
    requires OneCancel(out) && |ps| <= 1
    requires forall q, i | q in ps && q.CtxCancel? && 0 <= i < |out| :: !CancelsCall(out[i], q.id)
    ensures OneCancel(out + ps)
  {
    var all := out + ps;
    forall i, j | 0 <= i < j < |all| && all[i].CtxCancel? ensures !CancelsCall(all[j], all[i].id) {
      if j >= |out| && all[j].CtxCancel? { assert all[j] in ps; assert !CancelsCall(out[i], all[j].id); }
    }
  }

  // ---------------------------------------------------------------- what a step does to the causes

  /** A step that is not a cancel packet being read leaves every request's cause alone. */
  lemma RequestKeepsCause(c: Config, r: Requests, ctxDone: bool, pos: nat, op: RequestOp, at: nat)
    requires RequestGuard(c, r, ctxDone, op) && at in r.reqs
    ensures var r' := RequestEffect(c, r, ctxDone, pos, op);
            at in r'.reqs && r'.reqs[at].cause == r.reqs[at].cause && r'.reqs[at].req == r.reqs[at].req
  {
  }

  lemma CancelKeepsOthers(r: Requests, id: nat, cause: string, at: nat)
    requires CancelsOk(r) && at in r.reqs
    ensures var r' := DoCancel(r, id, cause);
            at in r'.reqs && r'.reqs[at].req == r.reqs[at].req
            && (r'.reqs[at].cause == r.reqs[at].cause || (r.reqs[at].req.id == id && r'.reqs[at].cause == Some(cause)))
  {
    if id in r.cancels { assert EntryFits(r, id); }
  }

  /** The requests a step leaves there, and what it can make of their causes. */
  lemma StepOnCause(c: Config, cap: nat, e: Endpoint, p: Endpoint, op: Op, at: nat)
    requires Good(e, p) && Guard(c, cap, e, p.io, op) && at in e.srv.reqs
    ensures var e' := Effect(c, cap, e, p.io, op);
            && at in e'.srv.reqs && e'.srv.reqs[at].req == e.srv.reqs[at].req
            && (e'.srv.reqs[at].cause == e.srv.reqs[at].cause ||
                (e.io.read < |p.io.out| && e'.io.read == e.io.read + 1
                 && CancelsWith(p.io.out[e.io.read], e.srv.reqs[at].req.id, e'.srv.reqs[at].cause)))
  {
    hide Local, Shared, RequestEffect, RequestGuard, StreamEffect, CallEffect, RequestOnTable;
    match op
    case OfCall(_) =>
    case OfRequest(o) => RequestKeepsCause(c, e.srv, e.io.ctxDone, |e.io.out|, o, at);
    case OfStream(_) =>
    case OfLink(o) => LinkOnCause(cap, e, p, o, at);
  }

  lemma LinkOnCause(cap: nat, e: Endpoint, p: Endpoint, op: LinkOp, at: nat)
    requires Good(e, p) && LinkGuard(cap, e.io, p.io, op) && at in e.srv.reqs
    ensures var e' := LinkEffect(cap, e, p.io, op);
            && at in e'.srv.reqs && e'.srv.reqs[at].req == e.srv.reqs[at].req
            && (e'.srv.reqs[at].cause == e.srv.reqs[at].cause ||
                (e.io.read < |p.io.out| && e'.io.read == e.io.read + 1
                 && CancelsWith(p.io.out[e.io.read], e.srv.reqs[at].req.id, e'.srv.reqs[at].cause)))
  {
    hide Local, Shared, DoRead, DoCleanup;
    if op.Read? { ReadOnCause(e, p, at); }
  }

  lemma ReadOnCause(e: Endpoint, p: Endpoint, at: nat)
    requires Good(e, p) && e.io.read < p.io.written <= |p.io.out| && at in e.srv.reqs
    ensures var e' := DoRead(e, p.io.out[e.io.read]);
            && at in e'.srv.reqs && e'.srv.reqs[at].req == e.srv.reqs[at].req && e'.io.read == e.io.read + 1
            && (e'.srv.reqs[at].cause == e.srv.reqs[at].cause
                || CancelsWith(p.io.out[e.io.read], e.srv.reqs[at].req.id, e'.srv.reqs[at].cause))
  {
    hide Local, Shared, Dispatch, DoCancel;
    ReadKeepsSpawns(e, p.io);
    var q := p.io.out[e.io.read];
    if q.CtxCancel? { CancelHere(e, q.id, q.cause, at); }
  }

  lemma CancelHere(e: Endpoint, id: nat, cause: string, at: nat)
    requires Local(e) && at in e.srv.reqs
    ensures var r' := DoCancel(e.srv, id, cause);
            && at in r'.reqs && r'.reqs[at].req == e.srv.reqs[at].req
            && (r'.reqs[at].cause == e.srv.reqs[at].cause ||
                (e.srv.reqs[at].req.id == id && r'.reqs[at].cause == Some(cause)))
  {
    assert CancelsOk(e.srv);
    hide Local, CancelsOk, DoCancel;
    CancelKeepsOthers(e.srv, id, cause, at);
  }

  lemma NewRequest(c: Config, cap: nat, e: Endpoint, p: Endpoint, op: Op, at: nat)
    requires Guard(c, cap, e, p.io, op) && at !in e.srv.reqs && at in Effect(c, cap, e, p.io, op).srv.reqs
    ensures Effect(c, cap, e, p.io, op).srv.reqs[at].cause.None?
  {
    hide Dispatch, DoCleanup, StreamEffect, CallEffect, RequestOnTable;
  }

  lemma TakenGrows(taken: seq<Packet>, more: seq<Packet>, id: nat)
    requires taken <= more && CancelTaken(taken, id)
    ensures CancelTaken(more, id)
  {
    var i :| 0 <= i < |taken| && CancelsCall(taken[i], id);
    assert more[i] == taken[i];
  }

  lemma CausesKept(c: Config, cap: nat, e: Endpoint, p: Endpoint, op: Op)
    requires Good(e, p) && Guard(c, cap, e, p.io, op) && e.io.read <= |p.io.out|
    requires CausesOk(e.srv, p.io.out[..e.io.read])
    ensures var e' := Effect(c, cap, e, p.io, op); e'.io.read <= |p.io.out| && CausesOk(e'.srv, p.io.out[..e'.io.read])
  {
    hide Good, Guard, Effect, CancelsWith, CauseFits;
    var e' := Effect(c, cap, e, p.io, op);
    StepGrows(c, cap, e, p.io, op);
    ReadInBounds(c, cap, e, p, op);
    var taken, taken' := p.io.out[..e.io.read], p.io.out[..e'.io.read];
    assert taken <= taken';
    forall at | at in e'.srv.reqs ensures CauseFits(taken', e'.srv.reqs[at]) {
      if at in e.srv.reqs {
        assert CauseFits(taken, e.srv.reqs[at]);
        StepOnCause(c, cap, e, p, op, at);
        if e'.srv.reqs[at].cause == e.srv.reqs[at].cause { CauseStays(taken, taken', e.srv.reqs[at], e'.srv.reqs[at]); }
        else { CauseIsTaken(p.io.out, e.io.read, e'.srv.reqs[at]); }
      } else {
        NewRequest(c, cap, e, p, op, at);
        NoCauseFits(taken', e'.srv.reqs[at]);
      }
    }
  }

  lemma CauseStays(taken: seq<Packet>, more: seq<Packet>, q: Req, q': Req)
    requires taken <= more && CauseFits(taken, q) && q'.req == q.req && q'.cause == q.cause
    ensures CauseFits(more, q')
  {
    if q.cause.Some? {
      var i :| 0 <= i < |taken| && taken[i] == CtxCancel(q.req.id, q.cause.value);
      assert more[i] == taken[i];
    }
  }

  lemma CauseIsTaken(out: seq<Packet>, n: nat, q: Req)
    requires n < |out| && CancelsWith(out[n], q.req.id, q.cause)
    ensures CauseFits(out[..n + 1], q)
  {
    assert out[..n + 1][n] == out[n];
  }

  lemma NoCauseFits(taken: seq<Packet>, q: Req)
    requires q.cause.None?
    ensures CauseFits(taken, q)
  {
  }

  lemma JustTaken(out: seq<Packet>, n: nat, id: nat)
    requires n < |out| && CancelsCall(out[n], id)
    ensures CancelTaken(out[..n + 1], id)
  {
    assert out[..n + 1][n] == out[n];
  }

  lemma ReadInBounds(c: Config, cap: nat, e: Endpoint, p: Endpoint, op: Op)
    requires Guard(c, cap, e, p.io, op) && e.io.read <= |p.io.out|
    ensures Effect(c, cap, e, p.io, op).io.read <= |p.io.out|
  {
    hide StreamEffect, RequestEffect, CallEffect, RequestOnTable, Dispatch, DoCancel, DoCleanup, Emits;
  }

  // ---------------------------------------------------------------- every run

  ghost predicate Caused(s: Sys) {
    && Inv(s) && Good(s.b, s.a) && s.a.io.read <= |s.b.io.out| && s.b.io.read <= |s.a.io.out|
    && CausesFit(s.a, s.b) && CausesFit(s.b, s.a)
  }

  lemma StepCauses(w: World, s: Sys, act: Action)
    requires Caused(s) && Enabled(w, s, act)
    ensures Caused(Step(w, s, act))
  {
    hide Local, Shared, Guard, Effect, OneCancel, CausesOk;
    var e, p := s.Of(act.x), s.Of(PeerOf(act.x));
    StepKeepsInv(w, s, act);
    OneCancelKept(w.Of(act.x), w.cap, e, p, act.op);
    CausesKept(w.Of(act.x), w.cap, e, p, act.op);
    StepGrows(w.Of(act.x), w.cap, e, p.io, act.op);
    assert Step(w, s, act).Of(act.x).io.out[..p.io.read] == e.io.out[..p.io.read];
  }

  lemma {:induction false} RunCauses(w: World, s: Sys, acts: seq<Action>)
    requires Caused(s) && Run(w, s, acts).Some?
    ensures Caused(Run(w, s, acts).value)
    decreases |acts|
  {
    hide Caused, Enabled, Step;
    if acts != [] {
      StepCauses(w, s, acts[0]);
      RunCauses(w, Step(w, s, acts[0]), acts[1..]);
    }
  }

  lemma ReachableCauses(w: World, s: Sys)
    requires Reachable(w, s)
    ensures Caused(s)
  {
    var acts: seq<Action> :| Run(w, INIT, acts) == Some(s);
    InitHolds();
    RunCauses(w, INIT, acts);
  }

  // ---------------------------------------------------------------- settled when read

  /** The cancel packet of request `at` was read, and its context has this cause. */
  ghost predicate CancelRead(e: Endpoint, p: Endpoint, at: nat, cause: Option<string>) {
    && at in e.srv.reqs && e.srv.reqs[at].cause == cause
    && e.io.read <= |p.io.out| && CancelTaken(p.io.out[..e.io.read], e.srv.reqs[at].req.id)
  }

  lemma OwnStepKeepsRead(c: Config, cap: nat, e: Endpoint, p: Endpoint, op: Op, at: nat, cause: Option<string>)
    requires Good(e, p) && Guard(c, cap, e, p.io, op) && OneCancel(p.io.out) && CancelRead(e, p, at, cause)
    ensures CancelRead(Effect(c, cap, e, p.io, op), p, at, cause)
  {
    hide Good, Guard, Effect, CancelTaken;
    StepOnCause(c, cap, e, p, op, at);
    StepGrows(c, cap, e, p.io, op);
    ReadInBounds(c, cap, e, p, op);
    var e' := Effect(c, cap, e, p.io, op);
    TakenGrows(p.io.out[..e.io.read], p.io.out[..e'.io.read], e.srv.reqs[at].req.id);
    if e.io.read < |p.io.out| { TakenOnce(p.io.out, e.io.read, e.srv.reqs[at].req.id); }
  }

  lemma TakenOnce(out: seq<Packet>, n: nat, id: nat)
    requires OneCancel(out) && n < |out| && CancelTaken(out[..n], id)
    ensures !CancelsCall(out[n], id)
  {
    var i :| 0 <= i < n && CancelsCall(out[..n][i], id);
    assert out[i].CtxCancel? && !CancelsCall(out[n], out[i].id);
  }

  lemma PeerStepKeepsRead(e: Endpoint, p: Endpoint, p': Endpoint, at: nat, cause: Option<string>)
    requires CancelRead(e, p, at, cause) && p.io.out <= p'.io.out
    ensures CancelRead(e, p', at, cause)
  {
    assert p'.io.out[..e.io.read] == p.io.out[..e.io.read];
  }

  /** Once a call's cancel packet was read, the cause of its handler's context never changes. */
  lemma {:induction false} CauseIsSettled(w: World, s: Sys, acts: seq<Action>, x: End, at: nat, cause: Option<string>)
    requires Caused(s) && Run(w, s, acts).Some? && CancelRead(s.Of(x), s.Of(PeerOf(x)), at, cause)
    ensures var t := Run(w, s, acts).value; at in t.Of(x).srv.reqs && t.Of(x).srv.reqs[at].cause == cause
    decreases |acts|
  {
    hide Local, Shared, Guard, Effect, OneCancel, CausesOk, CancelTaken;
    if acts != [] {
      var act := acts[0];
      StepCauses(w, s, act);
      StepGrows(w.Of(act.x), w.cap, s.Of(act.x), s.Of(PeerOf(act.x)).io, act.op);
      if act.x == x { OwnStepKeepsRead(w.Of(x), w.cap, s.Of(x), s.Of(PeerOf(x)), act.op, at, cause); }
      else { PeerStepKeepsRead(s.Of(x), s.Of(act.x), Step(w, s, act).Of(act.x), at, cause); }
      CauseIsSettled(w, Step(w, s, act), acts[1..], x, at, cause);
    }
  }

  /** The request a cancel packet is about was read before it, and not cancelled yet. */
  lemma CancelsRequest(e: Endpoint, p: Endpoint) returns (at: nat)
    requires Good(e, p) && e.io.read < p.io.written && p.io.out[e.io.read].CtxCancel? && CausesFit(e, p)
    ensures at in e.srv.reqs && e.srv.reqs[at].req.id == p.io.out[e.io.read].id && e.srv.reqs[at].cause.None?
    ensures forall other | other in e.srv.reqs && e.srv.reqs[other].req.id == e.srv.reqs[at].req.id :: other == at
  {
    var id := p.io.out[e.io.read].id;
    assert IssuedFits(p.inv, p.io.out, e.io.read);
    at := p.inv.calls[id].sentAt.value;
    assert SentFits(p.inv, p.io.out, id);
    IdsAreUnique(e, p);
    hide Good, OneCancel;
    assert CauseFits(p.io.out[..e.io.read], e.srv.reqs[at]);
    if e.srv.reqs[at].cause.Some? {
      CauseWasTaken(p.io.out[..e.io.read], e.srv.reqs[at]);
      TakenOnce(p.io.out, e.io.read, id);
    }
  }

  lemma CancelReadNow(e: Endpoint, p: Endpoint, at: nat)
    requires Good(e, p) && e.io.read < p.io.written && p.io.out[e.io.read].CtxCancel? && at in e.srv.reqs
    requires e.srv.reqs[at].req.id == p.io.out[e.io.read].id && e.srv.reqs[at].cause.None?
    ensures CancelRead(DoRead(e, p.io.out[e.io.read]), p, at,
                       if Cancellable(e.srv.reqs[at]) then Some(p.io.out[e.io.read].cause) else None)
  {
    var q := p.io.out[e.io.read];
    CancelOutcome(e, q.id, q.cause, at);
    ReadsCancel(e, q.id, q.cause);
    hide Good, DoRead, DoCancel, Cancellable;
    JustTaken(p.io.out, e.io.read, q.id);
  }

  lemma ReadsCancel(e: Endpoint, id: nat, cause: string)
    ensures var e' := DoRead(e, CtxCancel(id, cause));
            e'.srv == DoCancel(e.srv, id, cause) && e'.io.read == e.io.read + 1
  {
    hide DoCancel;
  }

  lemma CancelOutcome(e: Endpoint, id: nat, cause: string, at: nat)
    requires Local(e) && at in e.srv.reqs && e.srv.reqs[at].req.id == id && e.srv.reqs[at].cause.None?
    ensures var r' := DoCancel(e.srv, id, cause);
            && at in r'.reqs && r'.reqs[at].req == e.srv.reqs[at].req
            && r'.reqs[at].cause == if Cancellable(e.srv.reqs[at]) then Some(cause) else None
  {
    assert CancelsOk(e.srv);
    hide Local;
    CancelHitsOnlyIts(e.srv, id, cause);
    hide CancelsOk, DoCancel;
  }

  /** When a cancel packet is read, its request was read before and its handler's context not
      cancelled. The context ends with the packet's cause, then and in every continuation, if and
      only if the request is registered in `cancels` at that moment; otherwise the cancellation is
      lost, and the peer never cancels that context. */
  lemma CancelTakesEffect(w: World, s: Sys, x: End, acts: seq<Action>) returns (at: nat)
    requires Reachable(w, s) && Enabled(w, s, Action(x, OfLink(Read)))
    requires s.Of(PeerOf(x)).io.out[s.Of(x).io.read].CtxCancel?
    requires Run(w, Step(w, s, Action(x, OfLink(Read))), acts).Some?
    ensures var r, q := s.Of(x).srv, s.Of(PeerOf(x)).io.out[s.Of(x).io.read];
            && at in r.reqs && r.reqs[at].req.id == q.id && r.reqs[at].cause == None
            && (forall other | other in r.reqs && r.reqs[other].req.id == q.id :: other == at)
            && var t := Run(w, Step(w, s, Action(x, OfLink(Read))), acts).value.Of(x).srv;
               at in t.reqs && t.reqs[at].cause == if Cancellable(r.reqs[at]) then Some(q.cause) else None
  {
    var act := Action(x, OfLink(Read));
    var e, p := s.Of(x), s.Of(PeerOf(x));
    GoodFrom(w, s, x);
    ReachableCauses(w, s);
    StepCauses(w, s, act);
    ReadIsStep(w, s, x);
    CausesAt(s, x);
    hide Reachable, Good, Run, Enabled, Step, DoRead, Caused, CausesFit, Cancellable, CancelRead;
    at := CancelsRequest(e, p);
    CancelReadNow(e, p, at);
    CauseIsSettled(w, Step(w, s, act), acts, x, at,
                   if Cancellable(e.srv.reqs[at]) then Some(p.io.out[e.io.read].cause) else None);
  }

  lemma ReadIsStep(w: World, s: Sys, x: End)
    requires Enabled(w, s, Action(x, OfLink(Read)))
    ensures s.Of(x).io.read < s.Of(PeerOf(x)).io.written <= |s.Of(PeerOf(x)).io.out|
    ensures Step(w, s, Action(x, OfLink(Read))).Of(x) == DoRead(s.Of(x), s.Of(PeerOf(x)).io.out[s.Of(x).io.read])
    ensures Step(w, s, Action(x, OfLink(Read))).Of(PeerOf(x)) == s.Of(PeerOf(x))
  {
    hide DoRead;
  }

  lemma CausesAt(s: Sys, x: End)
    requires Caused(s)
    ensures s.Of(x).io.read <= |s.Of(PeerOf(x)).io.out| && CausesFit(s.Of(x), s.Of(PeerOf(x)))
  {
    hide Good, CausesFit;
  }

  /** In every continuation the context of request `at` has not been cancelled by the peer. */
  ghost predicate NeverCancelledFrom(w: World, s: Sys, x: End, at: nat) {
    forall acts | Run(w, s, acts).Some? ::
      at in Run(w, s, acts).value.Of(x).srv.reqs && Run(w, s, acts).value.Of(x).srv.reqs[at].cause == None
  }

  lemma LostCancelIsLost(w: World, s: Sys, x: End, at: nat)
    requires Reachable(w, s) && CancelRead(s.Of(x), s.Of(PeerOf(x)), at, None)
    ensures NeverCancelledFrom(w, s, x, at)
  {
    ReachableCauses(w, s);
    hide Reachable, Run, Caused, CancelRead;
    forall acts | Run(w, s, acts).Some?
      ensures at in Run(w, s, acts).value.Of(x).srv.reqs && Run(w, s, acts).value.Of(x).srv.reqs[at].cause == None
    {
      CauseIsSettled(w, s, acts, x, at, None);
    }
  }
}
